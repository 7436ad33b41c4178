/**
 * The Python string operations the blog pipeline relies on (str.strip, str.split,
 * "\n".join, str.isdigit, integer formatting), stated over `seq<char>`.
 * Whitespace is the ASCII part of Python's str.isspace: tab, line feed, vertical
 * tab, form feed, carriage return, the separators 0x1C..0x1F and the space.
 * The scanning functions walk an index through the text rather than re-slicing it.
 */
module PyStr {

  predicate IsSpace(c: char) {
    c == ' ' || '\t' <= c <= '\r' || '\U{1C}' <= c <= '\U{1F}'
  }

  predicate IsDigit(c: char) {
    '0' <= c <= '9'
  }

  predicate AllSpace(s: string) {
    forall i :: 0 <= i < |s| ==> IsSpace(s[i])
  }

  predicate NoSpace(s: string) {
    forall i :: 0 <= i < |s| ==> !IsSpace(s[i])
  }

  predicate AllDigits(s: string) {
    forall i :: 0 <= i < |s| ==> IsDigit(s[i])
  }

  /** Neither end of `s` is whitespace. */
  predicate IsStripped(s: string) {
    s == [] || (!IsSpace(s[0]) && !IsSpace(s[|s| - 1]))
  }

  function Min(a: int, b: int): int {
    if a <= b then a else b
  }

  /** Python's `s[:n]`. */
  function Prefix(s: string, n: nat): (r: string)
    ensures |r| == Min(|s|, n) && r == s[..|r|]
  {
    if |s| <= n then s else s[..n]
  }

  // ---------------------------------------------------------------- strip

  /** The first position at or after `i` that holds no whitespace, or |s|. */
  function SkipSpaces(s: string, i: nat): (k: nat)
    requires i <= |s|
    ensures i <= k <= |s|
    ensures k < |s| ==> !IsSpace(s[k])
    decreases |s| - i
  {
    if i < |s| && IsSpace(s[i]) then SkipSpaces(s, i + 1) else i
  }

  lemma {:induction false} SkipSpacesSkipsSpaces(s: string, i: nat)
    requires i <= |s|
    ensures forall j :: i <= j < SkipSpaces(s, i) ==> IsSpace(s[j])
    decreases |s| - i
  {
    if i < |s| && IsSpace(s[i]) {
      SkipSpacesSkipsSpaces(s, i + 1);
    }
  }

  /** SkipSpaces stops exactly at the first non-whitespace position. */
  lemma {:induction false} SkipSpacesAt(s: string, i: nat, k: nat)
    requires i <= k <= |s|
    requires forall j :: i <= j < k ==> IsSpace(s[j])
    requires k < |s| ==> !IsSpace(s[k])
    ensures SkipSpaces(s, i) == k
    decreases k - i
  {
    if i < k {
      SkipSpacesAt(s, i + 1, k);
    }
  }

  /** The end of `s[lo..hi]` once its trailing whitespace is dropped. */
  function DropTrailing(s: string, lo: nat, hi: nat): (k: nat)
    requires lo <= hi <= |s|
    ensures lo <= k <= hi
    ensures k > lo ==> !IsSpace(s[k - 1])
    decreases hi - lo
  {
    if lo < hi && IsSpace(s[hi - 1]) then DropTrailing(s, lo, hi - 1) else hi
  }

  lemma {:induction false} DropTrailingDropsSpaces(s: string, lo: nat, hi: nat)
    requires lo <= hi <= |s|
    ensures forall j :: DropTrailing(s, lo, hi) <= j < hi ==> IsSpace(s[j])
    decreases hi - lo
  {
    if lo < hi && IsSpace(s[hi - 1]) {
      DropTrailingDropsSpaces(s, lo, hi - 1);
    }
  }

  /** DropTrailing stops exactly after the last non-whitespace position. */
  lemma {:induction false} DropTrailingAt(s: string, lo: nat, hi: nat, k: nat)
    requires lo <= k <= hi <= |s|
    requires forall j :: k <= j < hi ==> IsSpace(s[j])
    requires k > lo ==> !IsSpace(s[k - 1])
    ensures DropTrailing(s, lo, hi) == k
    decreases hi - k
  {
    if k < hi {
      DropTrailingAt(s, lo, hi - 1, k);
    }
  }

  /** Python's str.strip() with no argument: the text between the leading and
      the trailing whitespace. */
  function Strip(s: string): (r: string)
    ensures IsStripped(r)
    ensures |r| <= |s|
  {
    var i := SkipSpaces(s, 0);
    s[i..DropTrailing(s, i, |s|)]
  }

  /** strip leaves nothing exactly when the text is all whitespace. */
  lemma StripEmpty(s: string)
    ensures Strip(s) == [] <==> AllSpace(s)
  {
    var i := SkipSpaces(s, 0);
    SkipSpacesSkipsSpaces(s, 0);
    DropTrailingDropsSpaces(s, i, |s|);
  }

  /** Strip removes exactly the surrounding whitespace: whatever a stripped text is
      padded with on either side, Strip gives that text back. */
  lemma StripUnique(a: string, r: string, b: string)
    requires AllSpace(a) && AllSpace(b) && IsStripped(r)
    ensures Strip(a + r + b) == r
  {
    var s := a + r + b;
    if r == [] {
      assert AllSpace(s) by {
        assert forall j :: 0 <= j < |s| ==> s[j] == if j < |a| then a[j] else b[j - |a|];
      }
      StripEmpty(s);
    } else {
      var k := |a| + |r|;
      assert s[|a|] == r[0] && s[k - 1] == r[|r| - 1];
      assert forall j :: 0 <= j < |a| ==> s[j] == a[j];
      assert forall j :: k <= j < |s| ==> s[j] == b[j - k];
      SkipSpacesAt(s, 0, |a|);
      DropTrailingAt(s, |a|, |s|, k);
      assert s[|a|..k] == r;
    }
  }

  /** A text with no surrounding whitespace is its own strip. */
  lemma StripStripped(s: string)
    requires IsStripped(s)
    ensures Strip(s) == s
  {
    StripUnique([], s, []);
    assert [] + s + [] == s;
  }

  /** Leading whitespace before a stripped text is all strip removes. */
  lemma StripLeading(a: string, s: string)
    requires AllSpace(a) && IsStripped(s)
    ensures Strip(a + s) == s
  {
    StripUnique(a, s, []);
    assert a + s + [] == a + s;
  }

  /** Stripping twice is stripping once. */
  lemma StripIdempotent(s: string)
    ensures Strip(Strip(s)) == Strip(s)
  {
    StripStripped(Strip(s));
  }

  /** Strip's result is the input with whitespace cut from both ends. */
  lemma StripParts(s: string) returns (a: string, b: string)
    ensures AllSpace(a) && AllSpace(b)
    ensures s == a + Strip(s) + b
  {
    var i := SkipSpaces(s, 0);
    var k := DropTrailing(s, i, |s|);
    SkipSpacesSkipsSpaces(s, 0);
    DropTrailingDropsSpaces(s, i, |s|);
    a, b := s[..i], s[k..];
    assert s == a + s[i..k] + b;
  }

  // ---------------------------------------------------------------- find

  /** The first position at or after `i` holding `c`, or |s|. */
  function Find(s: string, c: char, i: nat): (k: nat)
    requires i <= |s|
    ensures i <= k <= |s|
    ensures k < |s| ==> s[k] == c
    decreases |s| - i
  {
    if i < |s| && s[i] != c then Find(s, c, i + 1) else i
  }

  lemma {:induction false} FindFirst(s: string, c: char, i: nat)
    requires i <= |s|
    ensures forall j :: i <= j < Find(s, c, i) ==> s[j] != c
    decreases |s| - i
  {
    if i < |s| && s[i] != c {
      FindFirst(s, c, i + 1);
    }
  }

  /** Find stops exactly at the first `c`. */
  lemma {:induction false} FindAt(s: string, c: char, i: nat, k: nat)
    requires i <= k <= |s|
    requires forall j :: i <= j < k ==> s[j] != c
    requires k < |s| ==> s[k] == c
    ensures Find(s, c, i) == k
    decreases k - i
  {
    if i < k {
      FindAt(s, c, i + 1, k);
    }
  }

  /** Python's `s.split(c, 1)[-1]`: the text after the first `c`, or all of `s`
      when `c` does not occur. */
  function AfterFirst(s: string, c: char): (r: string)
    ensures |r| <= |s|
  {
    var k := Find(s, c, 0);
    if k < |s| then s[k + 1..] else s
  }

  /** Without a `c`, nothing is cut. */
  lemma AfterFirstAbsent(s: string, c: char)
    requires c !in s
    ensures AfterFirst(s, c) == s
  {
  }

  /** Cutting `a + [c] + b` after its first `c`, where `a` holds no `c`, leaves `b`. */
  lemma AfterFirstSplit(a: string, c: char, b: string)
    requires c !in a
    ensures AfterFirst(a + [c] + b, c) == b
  {
    var s := a + [c] + b;
    assert forall j :: 0 <= j < |a| ==> s[j] == a[j];
    FindAt(s, c, 0, |a|);
    assert s[|a| + 1..] == b;
  }

  // ---------------------------------------------------------------- lines

  /** Python's `sep.join(parts)`. */
  function Join(sep: string, parts: seq<string>): (r: string)
  {
    if |parts| == 0 then ""
    else if |parts| == 1 then parts[0]
    else parts[0] + sep + Join(sep, parts[1..])
  }

  /** The pieces of `s[i..]` between line feeds. */
  function SplitLinesFrom(s: string, i: nat): (r: seq<string>)
    requires i <= |s|
    ensures |r| >= 1
    decreases |s| - i
  {
    var k := Find(s, '\n', i);
    if k < |s| then [s[i..k]] + SplitLinesFrom(s, k + 1) else [s[i..]]
  }

  /** Python's `s.split("\n")`. */
  function SplitLines(s: string): (r: seq<string>)
    ensures |r| >= 1
  {
    SplitLinesFrom(s, 0)
  }

  lemma {:induction false} SplitLinesFromNoBreak(s: string, i: nat)
    requires i <= |s|
    ensures forall p :: p in SplitLinesFrom(s, i) ==> '\n' !in p
    decreases |s| - i
  {
    var k := Find(s, '\n', i);
    FindFirst(s, '\n', i);
    if k < |s| {
      SplitLinesFromNoBreak(s, k + 1);
    }
  }

  /** No line holds a line feed. */
  lemma SplitLinesNoBreak(s: string)
    ensures forall p :: p in SplitLines(s) ==> '\n' !in p
  {
    SplitLinesFromNoBreak(s, 0);
  }

  lemma {:induction false} JoinSplitLinesFrom(s: string, i: nat)
    requires i <= |s|
    ensures Join("\n", SplitLinesFrom(s, i)) == s[i..]
    decreases |s| - i
  {
    var k := Find(s, '\n', i);
    if k < |s| {
      JoinSplitLinesFrom(s, k + 1);
      assert s[i..] == s[i..k] + "\n" + s[k + 1..];
    }
  }

  /** Joining the lines of `s` with line feeds gives `s` back. */
  lemma JoinSplitLines(s: string)
    ensures Join("\n", SplitLines(s)) == s
  {
    JoinSplitLinesFrom(s, 0);
  }

  /** Where the rest of a text reads `x + y`, it reads `x` and then `y`. */
  lemma SliceConcat(s: string, i: nat, x: string, y: string)
    requires i <= |s| && s[i..] == x + y
    ensures i + |x| <= |s| && s[i..i + |x|] == x && s[i + |x|..] == y
  {
    assert s[i..i + |x|] == s[i..][..|x|];
    assert s[i + |x|..] == s[i..][|x|..];
  }

  /** A line `p` that the text's end or a line feed closes is the first piece. */
  lemma FirstLineAt(s: string, i: nat, p: string)
    requires i + |p| <= |s| && s[i..i + |p|] == p && '\n' !in p
    requires i + |p| < |s| ==> s[i + |p|] == '\n'
    ensures Find(s, '\n', i) == i + |p|
  {
    assert forall j :: i <= j < i + |p| ==> s[j] == p[j - i];
    FindAt(s, '\n', i, i + |p|);
  }

  lemma {:induction false} SplitJoinLinesFrom(s: string, i: nat, parts: seq<string>)
    requires i <= |s| && |parts| >= 1
    requires forall j :: 0 <= j < |parts| ==> '\n' !in parts[j]
    requires s[i..] == Join("\n", parts)
    ensures SplitLinesFrom(s, i) == parts
    decreases |parts|
  {
    var p := parts[0];
    if |parts| == 1 {
      SliceConcat(s, i, p, []);
      FirstLineAt(s, i, p);
    } else {
      var rest := Join("\n", parts[1..]);
      SliceConcat(s, i, p, "\n" + rest);
      SliceConcat(s, i + |p|, "\n", rest);
      FirstLineAt(s, i, p);
      SplitJoinLinesFrom(s, i + |p| + 1, parts[1..]);
    }
  }

  /** Splitting lines that hold no line feed, once joined, gives the same lines back. */
  lemma SplitJoinLines(parts: seq<string>)
    requires |parts| >= 1
    requires forall i :: 0 <= i < |parts| ==> '\n' !in parts[i]
    ensures SplitLines(Join("\n", parts)) == parts
  {
    var s := Join("\n", parts);
    assert s[0..] == s;
    SplitJoinLinesFrom(s, 0, parts);
  }

  // ---------------------------------------------------------------- words

  /** The end of the run of non-whitespace characters starting at `i`. */
  function WordEnd(s: string, i: nat): (k: nat)
    requires i <= |s|
    ensures i <= k <= |s|
    ensures k < |s| ==> IsSpace(s[k])
    ensures i < |s| && !IsSpace(s[i]) ==> i < k
    decreases |s| - i
  {
    if i < |s| && !IsSpace(s[i]) then WordEnd(s, i + 1) else i
  }

  lemma {:induction false} WordEndNoSpace(s: string, i: nat)
    requires i <= |s|
    ensures forall j :: i <= j < WordEnd(s, i) ==> !IsSpace(s[j])
    decreases |s| - i
  {
    if i < |s| && !IsSpace(s[i]) {
      WordEndNoSpace(s, i + 1);
    }
  }

  /** A non-empty run of non-whitespace characters. */
  predicate IsWord(w: string) {
    w != [] && NoSpace(w)
  }

  predicate AllWords(ws: seq<string>) {
    forall i :: 0 <= i < |ws| ==> IsWord(ws[i])
  }

  /** The words of `s[i..]`. */
  function WordsFrom(s: string, i: nat): seq<string>
    requires i <= |s|
    decreases |s| - i
  {
    var j := SkipSpaces(s, i);
    if j == |s| then
      []
    else
      var e := WordEnd(s, j);
      [s[j..e]] + WordsFrom(s, e)
  }

  /** Python's str.split() with no argument: every piece is non-empty and
      holds no whitespace, and there is none exactly when the text is all
      whitespace. */
  function Words(s: string): (r: seq<string>)
    ensures AllWords(r)
    ensures r == [] <==> AllSpace(s)
  {
    SkipSpacesSkipsSpaces(s, 0);
    WordsFromAreWords(s, 0);
    WordsFrom(s, 0)
  }

  lemma {:induction false} WordsFromAreWords(s: string, i: nat)
    requires i <= |s|
    ensures AllWords(WordsFrom(s, i))
    decreases |s| - i
  {
    var j := SkipSpaces(s, i);
    if j < |s| {
      var e := WordEnd(s, j);
      WordEndNoSpace(s, j);
      WordsFromAreWords(s, e);
      var w := s[j..e];
      assert IsWord(w) by {
        assert forall k :: 0 <= k < |w| ==> w[k] == s[j + k];
      }
      var ws := [w] + WordsFrom(s, e);
      assert forall k :: 0 < k < |ws| ==> ws[k] == WordsFrom(s, e)[k - 1];
    }
  }

  /** Position `k` begins a word: it holds no whitespace and follows whitespace
      or the start of the text. */
  predicate StartsWord(s: string, k: nat)
    requires k < |s|
  {
    !IsSpace(s[k]) && (k == 0 || IsSpace(s[k - 1]))
  }

  /** An independent count of words: the number of positions at or after `i`
      that begin a word. */
  function RunStarts(s: string, i: nat): nat
    requires i <= |s|
    decreases |s| - i
  {
    if i == |s| then 0 else (if StartsWord(s, i) then 1 else 0) + RunStarts(s, i + 1)
  }

  /** Whitespace begins no word. */
  lemma {:induction false} RunStartsSkipSpaces(s: string, i: nat)
    requires i <= |s|
    ensures RunStarts(s, i) == RunStarts(s, SkipSpaces(s, i))
    decreases |s| - i
  {
    if i < |s| && IsSpace(s[i]) {
      RunStartsSkipSpaces(s, i + 1);
    }
  }

  /** Inside a word no position begins a word. */
  lemma {:induction false} RunStartsInsideWord(s: string, i: nat)
    requires 0 < i <= |s| && !IsSpace(s[i - 1])
    ensures RunStarts(s, i) == RunStarts(s, WordEnd(s, i))
    decreases |s| - i
  {
    if i < |s| && !IsSpace(s[i]) {
      RunStartsInsideWord(s, i + 1);
    }
  }

  /** Counting from `i` counts the words of `s[i..]` when `i` is not inside a word. */
  lemma {:induction false} WordsFromCountRuns(s: string, i: nat)
    requires i <= |s|
    requires i == 0 || i == |s| || IsSpace(s[i - 1]) || IsSpace(s[i])
    ensures |WordsFrom(s, i)| == RunStarts(s, i)
    decreases |s| - i
  {
    var j := SkipSpaces(s, i);
    RunStartsSkipSpaces(s, i);
    if j < |s| {
      if i < j {
        SkipSpacesSkipsSpaces(s, i);
        assert IsSpace(s[j - 1]);
      }
      assert StartsWord(s, j);
      var e := WordEnd(s, j);
      assert e == WordEnd(s, j + 1);
      RunStartsInsideWord(s, j + 1);
      assert RunStarts(s, j) == 1 + RunStarts(s, e);
      WordsFromCountRuns(s, e);
      assert |WordsFrom(s, i)| == 1 + |WordsFrom(s, e)|;
    }
  }

  /** Python's split() finds one word per maximal run of non-whitespace characters. */
  lemma WordsCountRuns(s: string)
    ensures |Words(s)| == RunStarts(s, 0)
  {
    WordsFromCountRuns(s, 0);
  }

  // ---------------------------------------------------------------- digits

  function DigitChar(d: nat): (c: char)
    requires d < 10
    ensures IsDigit(c)
  {
    (48 + d) as char
  }

  /** Python's f"{n}" for a natural number: its decimal digits, with no
      leading zero unless the number is zero. */
  function NatToString(n: nat): (r: string)
    ensures r != [] && AllDigits(r)
    ensures n == 0 || r[0] != '0'
  {
    if n < 10 then [DigitChar(n)] else NatToString(n / 10) + [DigitChar(n % 10)]
  }

  /** The number a string of decimal digits denotes. */
  function DecimalValue(s: string): nat
    requires AllDigits(s)
  {
    if s == [] then 0 else 10 * DecimalValue(s[..|s| - 1]) + (s[|s| - 1] as int - 48)
  }

  /** Formatting a number in decimal loses nothing. */
  lemma {:induction false} DecimalRoundTrip(n: nat)
    ensures DecimalValue(NatToString(n)) == n
  {
    if n >= 10 {
      var s := NatToString(n);
      assert s[..|s| - 1] == NatToString(n / 10);
      DecimalRoundTrip(n / 10);
    }
  }
}
