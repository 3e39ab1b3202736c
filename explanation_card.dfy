/**
 * One explanation on screen (src/components/ExplanationCard.tsx): the
 * border colour, the level heading, the removal of numeric citations in
 * technical depth mode, and the routing of `mermaid` code blocks to the
 * diagram renderer. Regular expressions are written out as scanners over
 * ASCII: `\d` is a decimal digit, `\s` JavaScript whitespace and `\w` a
 * letter, digit or underscore.
 */
module ExplanationCard {
  import opened Wrappers
  import opened Text
  import opened Types

  // ----- border and heading -----

  /** `LEVEL_COLORS` for the levels. */
  function LevelColor(l: Level): string {
    match l
    case Eli5 => "border-l-green-500"
    case Eli10 => "border-l-teal-500"
    case Eli12 => "border-l-cyan-500"
    case Eli15 => "border-l-blue-500"
    case Meme => "border-l-purple-500"
    case Classic60 => "border-l-yellow-500"
    case Gentle70 => "border-l-indigo-500"
    case Warm80 => "border-l-rose-500"
  }

  /** `LEVEL_COLORS.technical_depth`. */
  const TECHNICAL_COLOR := "border-l-red-500"

  /** `LEVEL_NAMES`. */
  function LevelTitle(l: Level): string {
    match l
    case Eli5 => "Explain Like I'm 5"
    case Eli10 => "Explain Like I'm 10"
    case Eli12 => "Explain Like I'm 12"
    case Eli15 => "Explain Like I'm 15"
    case Meme => "Meme Explanation"
    case Classic60 => "Classic Mode"
    case Gentle70 => "Gentle Mode"
    case Warm80 => "Warm Mode"
  }

  /** What the card shows around the Markdown: its border class, its heading (if any) and the text it renders. */
  datatype CardView = CardView(border: string, heading: Option<string>, content: string)

  /** The card for a level's text; the mode prop is optional. */
  function Card(level: Level, content: string, mode: Option<Mode>): CardView {
    var isTechnical := mode == Some(TechnicalDepth);
    CardView(
      if isTechnical then TECHNICAL_COLOR else LevelColor(level),
      if isTechnical then None else Some(LevelTitle(level)),
      if isTechnical then StripCitations(content) else content)
  }

  /**
   * In technical depth mode every level gets the red border and no heading;
   * otherwise the level's own colour, which is never red, and its name,
   * and the text passes through unchanged.
   */
  lemma CardRules(level: Level, content: string, mode: Option<Mode>)
    ensures var c := Card(level, content, mode);
      (mode == Some(TechnicalDepth) <==> c.border == TECHNICAL_COLOR) &&
      (mode == Some(TechnicalDepth) <==> c.heading.None?) &&
      (mode != Some(TechnicalDepth) ==> c.content == content && c.border == LevelColor(level))
  {
    var c := LevelColor(level);
    assert c[9] != 'r' || c[10] != 'e' || c[11] != 'd';
  }

  // ----- citations -----

  predicate IsDigit(c: char) {
    '0' <= c <= '9'
  }

  /** The first index at or after `i` that does not hold a digit. */
  function SkipDigits(s: string, i: nat): (j: nat)
    requires i <= |s|
    ensures i <= j <= |s| && (j < |s| ==> !IsDigit(s[j]))
    ensures forall k :: i <= k < j ==> IsDigit(s[k])
    decreases |s| - i
  {
    if i < |s| && IsDigit(s[i]) then SkipDigits(s, i + 1) else i
  }

  /** The first index at or after `i` that does not hold whitespace. */
  function SkipSpaces(s: string, i: nat): (j: nat)
    requires i <= |s|
    ensures i <= j <= |s| && (j < |s| ==> !IsSpace(Js, s[j]))
    decreases |s| - i
  {
    if i < |s| && IsSpace(Js, s[i]) then SkipSpaces(s, i + 1) else i
  }

  /**
   * After a run of digits ending before `i`: the end of `(?:,\s*\d+)*\]`
   * starting at `i`, if it matches there. The match is unique: a shorter
   * run of digits or spaces would leave a digit or a space where only a
   * comma, a bracket or a digit may follow.
   */
  function GroupsEnd(s: string, i: nat): (r: Option<nat>)
    requires i <= |s|
    ensures r.Some? ==> i < r.value <= |s| && s[r.value - 1] == ']'
    decreases |s| - i
  {
    if i < |s| && s[i] == ']' then Some(i + 1)
    else if i < |s| && s[i] == ',' then
      var j := SkipSpaces(s, i + 1);
      var k := SkipDigits(s, j);
      if k == j then None else GroupsEnd(s, k)
    else None
  }

  /** The end of a numeric citation `\[\d+(?:,\s*\d+)*\]` starting at `i`, if one starts there. */
  function CitationAt(s: string, i: nat): (r: Option<nat>)
    requires i <= |s|
    ensures r.Some? ==> i + 2 < r.value <= |s| && s[i] == '[' && IsDigit(s[i + 1]) && s[r.value - 1] == ']'
  {
    if i < |s| && s[i] == '[' then
      var j := SkipDigits(s, i + 1);
      if j == i + 1 then None else GroupsEnd(s, j)
    else None
  }

  /** `s.replace(/\[\d+(?:,\s*\d+)*\]/g, '')` on the part of `s` from `i`: matches are removed left to right. */
  function StripFrom(s: string, i: nat): string
    requires i <= |s|
    decreases |s| - i
  {
    if i == |s| then []
    else
      var m := CitationAt(s, i);
      if m.Some? then StripFrom(s, m.value) else [s[i]] + StripFrom(s, i + 1)
  }

  function StripCitations(s: string): string {
    StripFrom(s, 0)
  }

  /** `a` is `b` with some characters deleted. */
  predicate Subsequence(a: string, b: string)
    decreases |b|
  {
    if a == [] then true
    else if b == [] then false
    else (a[0] == b[0] && Subsequence(a[1..], b[1..])) || Subsequence(a, b[1..])
  }

  /** Deleting more characters in front keeps a subsequence one. */
  lemma {:induction false} SubsequencePrefix(a: string, c: string, b: string)
    requires Subsequence(a, b)
    ensures Subsequence(a, c + b)
    decreases |c|
  {
    if c != [] && a != [] {
      assert (c + b)[1..] == c[1..] + b;
      SubsequencePrefix(a, c[1..], b);
    } else if c == [] {
      assert c + b == b;
    }
  }

  /** Stripping only deletes characters: what is left is a subsequence of the text. */
  lemma {:induction false} StripIsSubsequence(s: string, i: nat)
    requires i <= |s|
    ensures Subsequence(StripFrom(s, i), s[i..])
    decreases |s| - i
  {
    if i < |s| {
      var m := CitationAt(s, i);
      if m.Some? {
        StripIsSubsequence(s, m.value);
        assert s[i..] == s[i..m.value] + s[m.value..];
        SubsequencePrefix(StripFrom(s, m.value), s[i..m.value], s[m.value..]);
      } else {
        StripIsSubsequence(s, i + 1);
        var r := StripFrom(s, i);
        assert r[0] == s[i..][0] && r[1..] == StripFrom(s, i + 1) && s[i..][1..] == s[i + 1..];
      }
    }
  }

  /** Text without an opening bracket is not changed. */
  lemma {:induction false} StripWithoutBracket(s: string, i: nat)
    requires i <= |s|
    requires forall k :: i <= k < |s| ==> s[k] != '['
    ensures StripFrom(s, i) == s[i..]
    decreases |s| - i
  {
    if i < |s| {
      StripWithoutBracket(s, i + 1);
      assert s[i..] == [s[i]] + s[i + 1..];
    }
  }

  /** Examples: a single and a list citation are removed; a bracketed word and an unfinished list stay. */
  lemma StripExamples()
    ensures StripCitations("a[1]") == "a"
    ensures StripCitations("[1, 2]") == ""
    ensures StripCitations("[x]") == "[x]"
  {
    assert CitationAt("a[1]", 0).None?;
    assert CitationAt("a[1]", 1) == Some(4);
    assert CitationAt("[1, 2]", 0) == Some(6);
    StripWithoutBracket("[x]", 1);
    assert CitationAt("[x]", 0).None?;
  }

  // ----- code blocks -----

  predicate IsWordChar(c: char) {
    'a' <= c <= 'z' || 'A' <= c <= 'Z' || IsDigit(c) || c == '_'
  }

  /** The longest prefix of word characters. */
  function WordRun(s: string): (w: string)
    ensures |w| <= |s| && w == s[..|w|]
    ensures forall k :: 0 <= k < |w| ==> IsWordChar(w[k])
    ensures |w| < |s| ==> !IsWordChar(s[|w|])
  {
    if s != [] && IsWordChar(s[0]) then [s[0]] + WordRun(s[1..]) else []
  }

  /** `/language-(\w+)/.exec(className)[1]`: the word after the leftmost `language-` that has one. */
  function Language(className: string): Option<string> {
    if StartsWith(className, "language-") && |className| > 9 && IsWordChar(className[9]) then
      Some(WordRun(className[9..]))
    else if className == [] then None
    else Language(className[1..])
  }

  /** `String(children).replace(/\n$/, '')`: one final line feed is dropped. */
  function DropFinalNewline(s: string): (r: string)
    ensures s == r || s == r + "\n"
  {
    if s != [] && s[|s| - 1] == '\n' then s[..|s| - 1] else s
  }

  /** What the `code` renderer produces. */
  datatype Rendered = Diagram(chart: string) | CodeElement(className: string, children: string)

  /** The `code` renderer: a block (not inline) in the `mermaid` language becomes a diagram. */
  function RenderCode(inline: bool, className: Option<string>, children: string): Rendered {
    var lang := Language(className.GetOr(""));
    if !inline && lang == Some("mermaid") then Diagram(DropFinalNewline(children))
    else CodeElement(className.GetOr(""), children)
  }

  /** A diagram comes only from a block whose language is exactly `mermaid`; its chart is the code without its final line feed. */
  lemma MermaidRouting(inline: bool, className: Option<string>, children: string)
    ensures RenderCode(inline, className, children).Diagram? <==>
      !inline && Language(className.GetOr("")) == Some("mermaid")
    ensures RenderCode(inline, className, children).Diagram? ==>
      RenderCode(inline, className, children).chart + "\n" == children ||
      RenderCode(inline, className, children).chart == children
  {
  }

  /**
   * A class name that is `language-` and a word names that word, whole:
   * `language-mermaid` routes to the diagram renderer, `language-mermaidjs`
   * does not.
   */
  lemma LanguageAfterPrefix(w: string)
    requires w != [] && forall k :: 0 <= k < |w| ==> IsWordChar(w[k])
    ensures Language("language-" + w) == Some(w)
  {
    var c := "language-" + w;
    assert c[..9] == "language-";
    assert c[9..] == w;
    WordRunAll(w);
  }

  lemma {:induction false} WordRunAll(w: string)
    requires forall k :: 0 <= k < |w| ==> IsWordChar(w[k])
    ensures WordRun(w) == w
  {
    if w != [] {
      WordRunAll(w[1..]);
    }
  }
}
