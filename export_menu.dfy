/**
 * The export menu (src/components/ExportDropdown.tsx): the Markdown the
 * client builds itself for "Copy Markdown", the file name of a download, and
 * what choosing an entry of the menu does.
 *
 * `explanations` is a JavaScript object; its entries are visited in
 * insertion order, which holds for keys that are not array indices, as
 * level names never are.
 */
module ExportMenu {
  import opened Text
  import opened Types
  import OrderedDict

  // ----- the Markdown document -----

  /** The heading of a level: its first `eli` becomes `ELI-`, then everything is upper-cased. */
  function Label(level: string): string {
    Upper(ReplaceFirst(level, "eli", "ELI-"))
  }

  /** A horizontal rule and the blank line after it. */
  const RULE := "---\n\n"

  /**
   * One level's part of the document: its heading when the document holds
   * several levels outside technical depth mode, its trimmed text, and a
   * rule when there are several levels.
   */
  function Section(multi: bool, mode: Mode, level: string, text: string): string {
    SectionText(multi, mode, level, text) + (if multi then RULE else "")
  }

  /** A section up to its rule. */
  function SectionText(multi: bool, mode: Mode, level: string, text: string): string {
    Heading(multi, mode, level) + (Trim(Js, text) + "\n\n")
  }

  /** The heading of a section, if it has one. */
  function Heading(multi: bool, mode: Mode, level: string): string {
    if mode != TechnicalDepth && multi then "## " + Label(level) + "\n\n" else ""
  }

  /** The sections of the entries, in the entries' order. */
  function Sections(multi: bool, mode: Mode, entries: OrderedDict.Dict<string, string>): string {
    if entries == [] then []
    else
      var last := entries[|entries| - 1];
      Sections(multi, mode, entries[..|entries| - 1]) + Section(multi, mode, last.0, last.1)
  }

  /** The document before its final trim: title, a rule when there are several levels, then the sections. */
  function RawMarkdown(topic: string, explanations: OrderedDict.Dict<string, string>, mode: Mode): string {
    var multi := |explanations| > 1;
    "# " + topic + "\n\n" + (if multi then RULE else "") + Sections(multi, mode, explanations)
  }

  /** What `generateMarkdown` returns. */
  function Markdown(topic: string, explanations: OrderedDict.Dict<string, string>, mode: Mode): string {
    Trim(Js, RawMarkdown(topic, explanations, mode))
  }

  /** `generateMarkdown`: the title, then one section per entry, appended in a loop. */
  method GenerateMarkdown(topic: string, explanations: OrderedDict.Dict<string, string>, mode: Mode)
    returns (markdown: string)
    ensures markdown == Markdown(topic, explanations, mode)
  {
    markdown := "# " + topic + "\n\n";
    var multi := |explanations| > 1;
    if multi {
      markdown := markdown + RULE;
    }
    ghost var head := markdown;
    var i := 0;
    while i < |explanations|
      invariant 0 <= i <= |explanations|
      invariant markdown == head + Sections(multi, mode, explanations[..i])
    {
      var level, text := explanations[i].0, explanations[i].1;
      var section := AppendSection(multi, mode, level, text);
      SectionsSnoc(multi, mode, explanations, i);
      Assoc(head, Sections(multi, mode, explanations[..i]), section);
      markdown := markdown + section;
      i := i + 1;
    }
    assert explanations[..i] == explanations;
    markdown := Trim(Js, markdown);
  }

  lemma Assoc(a: string, b: string, c: string)
    ensures a + (b + c) == a + b + c
  {
  }

  /** Appending the section of the next entry extends the sections of a prefix by one. */
  lemma SectionsSnoc(multi: bool, mode: Mode, entries: OrderedDict.Dict<string, string>, i: nat)
    requires i < |entries|
    ensures Sections(multi, mode, entries[..i + 1]) ==
      Sections(multi, mode, entries[..i]) + Section(multi, mode, entries[i].0, entries[i].1)
  {
    assert entries[..i + 1][..i] == entries[..i];
  }

  /** The body of `generateMarkdown`'s loop for one entry: the text it appends. */
  method AppendSection(multi: bool, mode: Mode, level: string, text: string) returns (section: string)
    ensures section == Section(multi, mode, level, text)
  {
    section := "";
    if mode != TechnicalDepth && multi {
      section := "## " + Label(level) + "\n\n";
    }
    section := section + (Trim(Js, text) + "\n\n");
    if multi {
      section := section + RULE;
    }
  }

  /** A document of one level whose text is not blank is the title and that text, with no heading and no rule. */
  lemma MarkdownSingle(topic: string, level: string, text: string, mode: Mode)
    requires !AllSpace(Js, text)
    ensures Markdown(topic, [(level, text)], mode) == "# " + topic + "\n\n" + Trim(Js, text)
  {
    var t := Trim(Js, text);
    TrimBlank(Js, text);
    var body := "# " + topic + "\n\n" + t;
    SingleRaw(topic, level, text, mode);
    assert body[|body| - 1] == t[|t| - 1];
    TrimStartKeeps(Js, body + "\n\n");
    TrimEndSpaces(Js, body, "\n\n");
  }

  /** The raw document of one level: the title, the trimmed text and a blank line. */
  lemma SingleRaw(topic: string, level: string, text: string, mode: Mode)
    ensures RawMarkdown(topic, [(level, text)], mode) == ("# " + topic + "\n\n" + Trim(Js, text)) + "\n\n"
  {
    SectionsOneEntry(mode, level, text);
    Assoc("# " + topic + "\n\n", Trim(Js, text), "\n\n");
  }

  /** The sections of one entry: its trimmed text and a blank line. */
  lemma SectionsOneEntry(mode: Mode, level: string, text: string)
    ensures Sections(false, mode, [(level, text)]) == Trim(Js, text) + "\n\n"
  {
    var entries := [(level, text)];
    assert entries[..0] == [];
    assert Heading(false, mode, level) == "";
  }

  /**
   * A document of several levels starts with the title and a rule and ends
   * with a rule: the trim removes only the blank lines after the last one.
   */
  lemma MarkdownMulti(topic: string, explanations: OrderedDict.Dict<string, string>, mode: Mode)
    requires |explanations| > 1
    ensures var md := Markdown(topic, explanations, mode);
      StartsWith(md, "# " + topic + "\n\n" + RULE) && |md| >= 3 && md[|md| - 3..] == "---"
  {
    var head := "# " + topic + "\n\n" + RULE;
    var x := MultiRaw(topic, explanations, mode);
    assert x[0] == head[0];
    TrimRuleEnd(x);
    EndsWithRule(x, head);
  }

  /** Trimming text that starts with a non-space and ends with a rule and a blank line drops only the blank line. */
  lemma TrimRuleEnd(x: string)
    requires x != [] && !IsSpace(Js, x[0])
    ensures Trim(Js, x + "---" + "\n\n") == x + "---"
  {
    var y := x + "---";
    assert (y + "\n\n")[0] == x[0];
    TrimStartKeeps(Js, y + "\n\n");
    assert y[|y| - 1] == '-';
    TrimEndSpaces(Js, y, "\n\n");
  }

  /** Appending a rule keeps a prefix and ends with the rule. */
  lemma EndsWithRule(x: string, head: string)
    requires StartsWith(x, head)
    ensures StartsWith(x + "---", head) && |x + "---"| >= 3 && (x + "---")[|x + "---"| - 3..] == "---"
  {
    assert (x + "---")[..|head|] == x[..|head|];
  }

  /** The raw multi-level document is the title, a rule, the sections and a last rule. */
  lemma MultiRaw(topic: string, explanations: OrderedDict.Dict<string, string>, mode: Mode) returns (x: string)
    requires |explanations| > 1
    ensures RawMarkdown(topic, explanations, mode) == x + "---" + "\n\n"
    ensures StartsWith(x, "# " + topic + "\n\n" + RULE)
  {
    var n := |explanations| - 1;
    var head := "# " + topic + "\n\n" + RULE;
    var front := Sections(true, mode, explanations[..n]);
    var last := SectionText(true, mode, explanations[n].0, explanations[n].1);
    SectionsSnoc(true, mode, explanations, n);
    assert explanations[..n + 1] == explanations;
    var raw := RawMarkdown(topic, explanations, mode);
    assert raw == head + (front + (last + RULE));
    x := head + front + last;
    Assoc(front, last, RULE);
    Assoc(head, front + last, RULE);
    Assoc(head, front, last);
    assert raw == x + RULE;
    RuleSplit();
    Assoc(x, "---", "\n\n");
    PrefixOfAppend(head, front, last);
  }

  lemma RuleSplit()
    ensures RULE == "---" + "\n\n"
  {
  }

  lemma PrefixOfAppend(a: string, b: string, c: string)
    ensures StartsWith(a + b + c, a)
  {
    assert (a + b + c)[..|a|] == a;
  }

  // ----- the download file name -----

  /**
   * The regular expression replacement `/\s+/g` to `rep`, applied to the
   * part of a string after a character that was (`inRun`) or was not
   * whitespace.
   */
  function SquashRuns(s: string, rep: char, inRun: bool): string {
    if s == [] then []
    else if IsSpace(Js, s[0]) then (if inRun then [] else [rep]) + SquashRuns(s[1..], rep, true)
    else [s[0]] + SquashRuns(s[1..], rep, false)
  }

  /** Squashing leaves no whitespace when the replacement is not whitespace, and never lengthens. */
  lemma {:induction false} SquashRunsClean(s: string, rep: char, inRun: bool)
    requires !IsSpace(Js, rep)
    ensures var r := SquashRuns(s, rep, inRun);
      |r| <= |s| && forall i :: 0 <= i < |r| ==> !IsSpace(Js, r[i])
  {
    if s != [] {
      SquashRunsClean(s[1..], rep, IsSpace(Js, s[0]));
    }
  }

  /** A string without whitespace is left unchanged. */
  lemma {:induction false} SquashRunsNoSpace(s: string, rep: char, inRun: bool)
    requires !exists i :: 0 <= i < |s| && IsSpace(Js, s[i])
    ensures SquashRuns(s, rep, inRun) == s
  {
    if s != [] {
      assert !IsSpace(Js, s[0]);
      assert forall i :: 0 <= i < |s| - 1 ==> s[1..][i] == s[i + 1];
      SquashRunsNoSpace(s[1..], rep, false);
    }
  }

  /** `topic.toLowerCase().replace(/\s+/g, '_').slice(0, 30)`. */
  function Slug(topic: string): string {
    var r := SquashRuns(Lower(topic), '_', false);
    if |r| <= 30 then r else r[..30]
  }

  /** No capital ASCII letter. */
  predicate Caseless(s: string) {
    forall i :: 0 <= i < |s| ==> !('A' <= s[i] <= 'Z')
  }

  /** A slug has at most 30 characters, no whitespace and no capital letter. */
  lemma SlugShape(topic: string)
    ensures var s := Slug(topic);
      |s| <= 30 && Caseless(s) && forall i :: 0 <= i < |s| ==> !IsSpace(Js, s[i])
  {
    var l := Lower(topic);
    SquashRunsClean(l, '_', false);
    SquashCaseless(l, '_', false);
  }

  /** Squashing a caseless string with a caseless replacement leaves it caseless. */
  lemma {:induction false} SquashCaseless(s: string, rep: char, inRun: bool)
    requires !('A' <= rep <= 'Z') && Caseless(s)
    ensures Caseless(SquashRuns(s, rep, inRun))
  {
    if s != [] {
      var rest := SquashRuns(s[1..], rep, IsSpace(Js, s[0]));
      assert Caseless(s[1..]) by {
        assert forall i :: 0 <= i < |s| - 1 ==> s[1..][i] == s[i + 1];
      }
      SquashCaseless(s[1..], rep, IsSpace(Js, s[0]));
      var first: string := if IsSpace(Js, s[0]) then (if inRun then [] else [rep]) else [s[0]];
      assert Caseless(first) by {
        assert !('A' <= s[0] <= 'Z');
      }
      assert SquashRuns(s, rep, inRun) == first + rest;
      CaselessAppend(first, rest);
    }
  }

  lemma CaselessAppend(a: string, b: string)
    requires Caseless(a) && Caseless(b)
    ensures Caseless(a + b)
  {
    forall i | 0 <= i < |a + b| ensures !('A' <= (a + b)[i] <= 'Z') {
      if i >= |a| {
        assert (a + b)[i] == b[i - |a|];
      }
    }
  }

  /** A format the menu offers or the request type allows. */
  datatype Format = Txt | Json | Pdf | Md | Copy

  function FormatName(f: Format): string {
    match f
    case Txt => "txt"
    case Json => "json"
    case Pdf => "pdf"
    case Md => "md"
    case Copy => "copy"
  }

  /** The download's file name: `<slug>-technical-depth.<format>` in technical depth mode, else `knowbear-<slug>.<format>`. */
  function FileName(topic: string, mode: Mode, format: Format): (name: string)
    ensures mode == TechnicalDepth ==> StartsWith(name, Slug(topic) + "-technical-depth.")
    ensures mode != TechnicalDepth ==> StartsWith(name, "knowbear-" + Slug(topic) + ".")
    ensures |name| > |FormatName(format)| && name[|name| - |FormatName(format)|..] == FormatName(format)
    ensures name[|name| - |FormatName(format)| - 1] == '.'
  {
    var ext := FormatName(format);
    var base := if mode == TechnicalDepth then Slug(topic) + "-technical-depth" else "knowbear-" + Slug(topic);
    assert (base + "." + ext)[..|base| + 1] == base + ".";
    base + "." + ext
  }

  // ----- the menu -----

  /** The body of the export request. */
  datatype ExportRequest = ExportRequest(
    topic: string,
    explanations: OrderedDict.Dict<string, string>,
    format: Format,
    premium: bool,
    mode: Mode)

  /** What choosing an entry leads to outside the component. */
  datatype Effect =
    | NoEffect
    | Clipboard(text: string)
    | Download(request: ExportRequest, fileName: string)

  /** The dropdown, with the props it was rendered with. */
  class ExportDropdown {
    const topic: string
    const explanations: OrderedDict.Dict<string, string>
    const mode: Mode
    var isOpen: bool
    var loading: bool
    var copied: bool

    constructor (topic: string, explanations: OrderedDict.Dict<string, string>, mode: Mode)
      ensures this.topic == topic && this.explanations == explanations && this.mode == mode
      ensures !isOpen && !loading && !copied
    {
      this.topic, this.explanations, this.mode := topic, explanations, mode;
      isOpen, loading, copied := false, false, false;
    }

    /**
     * `handleExport`, with the usage gate's answer, the pro flag and the
     * outcome of the outside call (the clipboard write for "copy", the
     * export request otherwise) as inputs: the menu always closes; a refused
     * export does nothing else; "copy" puts the client-built Markdown on the
     * clipboard, never calls the backend, and shows the copied badge only
     * when the write succeeded; Markdown and text are downloaded under
     * `FileName` only when the request succeeded, a failure being logged
     * and dropped; the disabled formats do nothing. The busy flag is down
     * again at the end.
     */
    method HandleExport(format: Format, allowed: bool, isPro: bool, succeeded: bool) returns (effect: Effect)
      modifies this
      ensures !isOpen
      ensures !allowed ==> effect == NoEffect && loading == old(loading) && copied == old(copied)
      ensures allowed && format == Copy ==>
        effect == (if succeeded then Clipboard(Markdown(topic, explanations, mode)) else NoEffect) &&
        copied == (succeeded || old(copied)) && loading == old(loading)
      ensures allowed && (format == Md || format == Txt) ==>
        effect == (if succeeded then Download(ExportRequest(topic, explanations, format, isPro, mode), FileName(topic, mode, format)) else NoEffect)
      ensures allowed && (format == Json || format == Pdf) ==> effect == NoEffect
      ensures allowed && format != Copy ==> !loading && copied == old(copied)
    {
      isOpen := false;
      if !allowed {
        return NoEffect;
      }
      if format == Copy {
        var markdown := GenerateMarkdown(topic, explanations, mode);
        if !succeeded {
          // the rejected write ends the handler before the badge is set
          return NoEffect;
        }
        copied := true;
        return Clipboard(markdown);
      }
      loading := true;
      var name := FileName(topic, mode, format);
      effect := NoEffect;
      if (format == Md || format == Txt) && succeeded {
        effect := Download(ExportRequest(topic, explanations, format, isPro, mode), name);
      }
      loading := false;
    }
  }
}
