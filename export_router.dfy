/**
 * `POST /export` on the backend (api/routers/export.py): decide which levels
 * the download must hold, generate the missing ones, put the levels in
 * their canonical order, and render the result as plain text, Markdown or
 * JSON under a file name derived from the topic.
 *
 * The handler names `FREE_LEVELS` and `PREMIUM_LEVELS` without defining or
 * importing them. `ExportAsWritten` keeps that: outside technical depth mode
 * the lookup raises and the global handler answers 500. Everything else
 * (`Export`, `ExportAnswer`) binds the two names to the client's level lists
 * (`Types.FreeLevelNames`, `Types.PremiumLevelNames`).
 */
module ExportRouter {
  import opened Wrappers
  import opened Text
  import opened OrderedDict
  import opened Types
  import opened QueryRouter
  import ExportMenu

  const TECHNICAL_DEPTH := "technical_depth"

  /** The separator line written between sections. */
  const RULE := "---\n\n"

  const FILL_ERROR := "Error generating content: "
  const FORMAT_REFUSED := "Requested format is currently disabled or invalid"

  /** `ExportRequest`; the unused `visuals` field is left out. */
  datatype ExportRequest = ExportRequest(topic: string, explanations: Dict<string, string>, format: string, premium: bool, mode: string)

  /** The body of the download: encoded text, or the object `{topic, explanations}` that `json.dumps` writes. */
  datatype Body = TextBody(content: string) | JsonBody(topic: string, explanations: Dict<string, string>)

  /** The streamed answer: its media type, the file name of its `Content-Disposition` and its body. */
  datatype Download = Download(mediaType: string, fileName: string, body: Body)

  /** The field constraints: a non-empty topic, and a format matching `^(txt|json|pdf|md)$`. */
  predicate WellFormed(req: ExportRequest) {
    req.topic != [] && req.format in {"txt", "json", "pdf", "md"}
  }

  predicate IsTechnical(req: ExportRequest) {
    req.mode == TECHNICAL_DEPTH
  }

  /** `FREE_LEVELS`, followed by `PREMIUM_LEVELS` for a verified pro. */
  function CanonicalNames(isPro: bool): seq<string> {
    FreeLevelNames() + (if isPro then PremiumLevelNames() else [])
  }

  predicate Distinct(names: seq<string>) {
    forall i, j :: 0 <= i < j < |names| ==> names[i] != names[j]
  }

  lemma CanonicalDistinct(isPro: bool)
    ensures Distinct(CanonicalNames(isPro))
    ensures TECHNICAL_DEPTH !in CanonicalNames(isPro)
  {
  }

  /** `target_levels`. */
  function Targets(explanations: Dict<string, string>, technical: bool, isPro: bool): set<string> {
    if technical then
      if TECHNICAL_DEPTH !in Keys(explanations) && explanations != [] then set k | k in Keys(explanations)
      else {TECHNICAL_DEPTH}
    else set l | l in CanonicalNames(isPro)
  }

  /** `target_levels - current_levels`: the levels the handler generates. */
  function Missing(explanations: Dict<string, string>, technical: bool, isPro: bool): set<string> {
    Targets(explanations, technical, isPro) - set k | k in Keys(explanations)
  }

  /**
   * In technical depth mode a level is generated only when the request
   * brought no explanation at all, and then it is `technical_depth`.
   * Otherwise the handler generates exactly the canonical levels the
   * request lacks.
   */
  lemma MissingLevels(explanations: Dict<string, string>, technical: bool, isPro: bool)
    ensures technical ==> Missing(explanations, technical, isPro) == if explanations == [] then {TECHNICAL_DEPTH} else {}
    ensures !technical ==> forall l :: l in Missing(explanations, technical, isPro) <==> l in CanonicalNames(isPro) && l !in Keys(explanations)
  {
    if technical && explanations != [] {
      assert explanations[0].0 in Keys(explanations);
    }
  }

  /** `list(...)` of a set: its elements, each once, in the set's own iteration order. */
  predicate Enumerates(order: seq<string>, s: set<string>) {
    Distinct(order) && (set l | l in order) == s
  }

  /** A list without repetitions has as many elements as its set. */
  lemma {:induction false} DistinctCard(order: seq<string>)
    requires Distinct(order)
    ensures |set l | l in order| == |order|
    decreases |order|
  {
    if order != [] {
      var n := |order| - 1;
      DistinctCard(order[..n]);
      assert order == order[..n] + [order[n]];
      assert (set l | l in order) == (set l | l in order[..n]) + {order[n]};
      assert order[n] !in order[..n];
    }
  }

  /** What is stored for a generated level: its text, or the exception's message after a fixed prefix. */
  function FillText(o: Outcome): string {
    match o
    case Generated(text) => text
    case Failed(message) => FILL_ERROR + message
  }

  /** The explanations after `req.explanations[lvl] = ...` for each level of `order`. */
  function Filled(d: Dict<string, string>, order: seq<string>, generate: string -> Outcome): Dict<string, string>
    decreases |order|
  {
    if order == [] then d
    else
      var n := |order| - 1;
      Put(Filled(d, order[..n], generate), order[n], FillText(generate(order[n])))
  }

  /** The fill loop over the missing levels, in `order`. */
  method FillMissing(explanations: Dict<string, string>, order: seq<string>, generate: string -> Outcome)
    returns (filled: Dict<string, string>)
    ensures filled == Filled(explanations, order, generate)
  {
    filled := explanations;
    var i := 0;
    while i < |order|
      invariant 0 <= i <= |order|
      invariant filled == Filled(explanations, order[..i], generate)
    {
      assert order[..i + 1][..i] == order[..i];
      filled := Put(filled, order[i], FillText(generate(order[i])));
      i := i + 1;
    }
    assert order[..|order|] == order;
  }

  /** A generated level reads its outcome; every other level reads what the request sent. */
  lemma {:induction false} FilledGet(d: Dict<string, string>, order: seq<string>, generate: string -> Outcome, l: string)
    ensures Get(Filled(d, order, generate), l) == if l in order then Some(FillText(generate(l))) else Get(d, l)
    decreases |order|
  {
    if order != [] {
      var n := |order| - 1;
      FilledGet(d, order[..n], generate, l);
      PutGet(Filled(d, order[..n], generate), order[n], FillText(generate(order[n])), l);
      assert order == order[..n] + [order[n]];
    }
  }

  /**
   * Filling levels the request lacks keeps its entries where they were and
   * appends the generated ones after them, in generation order.
   */
  lemma {:induction false} FilledKeys(d: Dict<string, string>, order: seq<string>, generate: string -> Outcome)
    requires Valid(d) && Distinct(order)
    requires forall l :: l in order ==> l !in Keys(d)
    ensures Keys(Filled(d, order, generate)) == Keys(d) + order
    decreases |order|
  {
    if order == [] {
      assert Keys(d) + order == Keys(d);
    } else {
      var n := |order| - 1;
      var prev := Filled(d, order[..n], generate);
      FilledKeys(d, order[..n], generate);
      assert order[n] !in order[..n];
      assert order[n] !in Keys(prev);
      PutKeys(prev, order[n], FillText(generate(order[n])));
      assert order == order[..n] + [order[n]];
    }
  }

  /** Filling never duplicates a key. */
  lemma {:induction false} FilledValid(d: Dict<string, string>, order: seq<string>, generate: string -> Outcome)
    requires Valid(d)
    ensures Valid(Filled(d, order, generate))
    decreases |order|
  {
    if order != [] {
      var n := |order| - 1;
      FilledValid(d, order[..n], generate);
      PutValid(Filled(d, order[..n], generate), order[n], FillText(generate(order[n])));
    }
  }

  /** The entries of `d` under the names of `names`, in the order of `names`. */
  function Pick(d: Dict<string, string>, names: seq<string>): Dict<string, string>
    decreases |names|
  {
    if names == [] then []
    else
      var n := |names| - 1;
      var rest := Pick(d, names[..n]);
      match Get(d, names[n])
      case Some(v) => Put(rest, names[n], v)
      case None => rest
  }

  /** The names of `names` that `d` holds, in the order of `names`. */
  function Present(d: Dict<string, string>, names: seq<string>): seq<string>
    decreases |names|
  {
    if names == [] then []
    else
      var n := |names| - 1;
      Present(d, names[..n]) + if Get(d, names[n]).Some? then [names[n]] else []
  }

  /** A picked name reads what it read before; any other name is dropped. */
  lemma {:induction false} PickGet(d: Dict<string, string>, names: seq<string>, l: string)
    ensures Get(Pick(d, names), l) == if l in names then Get(d, l) else None
    decreases |names|
  {
    if names != [] {
      var n := |names| - 1;
      PickGet(d, names[..n], l);
      assert names == names[..n] + [names[n]];
      match Get(d, names[n])
      case Some(v) => PutGet(Pick(d, names[..n]), names[n], v, l);
      case None =>
    }
  }

  /** Picking by distinct names orders the result by those names. */
  lemma {:induction false} PickKeys(d: Dict<string, string>, names: seq<string>)
    requires Distinct(names)
    ensures Keys(Pick(d, names)) == Present(d, names)
    decreases |names|
  {
    if names != [] {
      var n := |names| - 1;
      var rest := Pick(d, names[..n]);
      PickKeys(d, names[..n]);
      match Get(d, names[n])
      case Some(v) =>
        PickGet(d, names[..n], names[n]);
        GetFound(rest, names[n]);
        PutKeys(rest, names[n], v);
      case None =>
        assert Present(d, names) == Present(d, names[..n]) + [];
    }
  }

  /** When `d` holds every name, all of them are present. */
  lemma {:induction false} PresentAll(d: Dict<string, string>, names: seq<string>)
    requires forall l :: l in names ==> Get(d, l).Some?
    ensures Present(d, names) == names
    decreases |names|
  {
    if names != [] {
      var n := |names| - 1;
      assert names == names[..n] + [names[n]];
      PresentAll(d, names[..n]);
    }
  }

  /**
   * `ordered_explanations`: in technical depth mode only `technical_depth`
   * when present, else everything as it is; otherwise the canonical levels
   * present, in canonical order.
   */
  function Ordered(d: Dict<string, string>, technical: bool, isPro: bool): Dict<string, string> {
    if technical then
      match Get(d, TECHNICAL_DEPTH)
      case Some(v) => [(TECHNICAL_DEPTH, v)]
      case None => d
    else Pick(d, CanonicalNames(isPro))
  }

  /** The ordering loops. */
  method Order(d: Dict<string, string>, technical: bool, isPro: bool) returns (ordered: Dict<string, string>)
    ensures ordered == Ordered(d, technical, isPro)
  {
    if technical {
      var found := Get(d, TECHNICAL_DEPTH);
      if found.Some? {
        ordered := [(TECHNICAL_DEPTH, found.value)];
      } else {
        ordered := d;
      }
      return;
    }
    var free := FreeLevelNames();
    ordered := [];
    var i := 0;
    while i < |free|
      invariant 0 <= i <= |free|
      invariant ordered == Pick(d, free[..i])
    {
      assert free[..i + 1][..i] == free[..i];
      var found := Get(d, free[i]);
      if found.Some? {
        ordered := Put(ordered, free[i], found.value);
      }
      i := i + 1;
    }
    assert free[..|free|] == free;
    if isPro {
      var premium := PremiumLevelNames();
      assert free + premium[..0] == free;
      var j := 0;
      while j < |premium|
        invariant 0 <= j <= |premium|
        invariant ordered == Pick(d, free + premium[..j])
      {
        var names := free + premium[..j + 1];
        assert names[..|names| - 1] == free + premium[..j];
        assert names[|names| - 1] == premium[j];
        var found := Get(d, premium[j]);
        if found.Some? {
          ordered := Put(ordered, premium[j], found.value);
        }
        j := j + 1;
      }
      assert premium[..|premium|] == premium;
    } else {
      assert free + [] == free;
    }
  }

  /** `level.replace('eli', 'ELI-').upper()`, or the txt format's own label for technical depth. */
  function HeadingName(txt: bool, level: string): string {
    if txt && level == TECHNICAL_DEPTH then "TECHNICAL DEPTH"
    else Upper(ReplaceAll(level, "eli", "ELI-"))
  }

  /** One explanation: an optional `## ` heading, the stripped text, and the separator when there are several. */
  function Section(txt: bool, headed: bool, multi: bool, level: string, text: string): string {
    Heading(txt, headed, level) + (Trim(Py, text) + "\n\n") + Separator(multi)
  }

  function Heading(txt: bool, headed: bool, level: string): string {
    if headed then "## " + HeadingName(txt, level) + "\n\n" else ""
  }

  function Separator(multi: bool): string {
    if multi then RULE else ""
  }

  function Sections(txt: bool, headed: bool, multi: bool, d: Dict<string, string>): string
    decreases |d|
  {
    if d == [] then []
    else
      var n := |d| - 1;
      Sections(txt, headed, multi, d[..n]) + Section(txt, headed, multi, d[n].0, d[n].1)
  }

  function Title(topic: string): string {
    "# " + topic + "\n\n"
  }

  /**
   * The txt (`txt` true) or md document: the title, a separator when there
   * is more than one explanation, then the sections in dictionary order,
   * headed only outside technical depth mode with more than one explanation.
   */
  function Document(topic: string, d: Dict<string, string>, technical: bool, txt: bool): string {
    var multi := |d| > 1;
    Title(topic) + Separator(multi) + Sections(txt, !technical && multi, multi, d)
  }

  /** The txt and md branches: the title, a separator when there are several explanations, then the loop. */
  method Render(topic: string, d: Dict<string, string>, technical: bool, txt: bool) returns (content: string)
    ensures content == Document(topic, d, technical, txt)
  {
    var multi := |d| > 1;
    content := "# " + topic + "\n\n";
    if multi {
      content := content + RULE;
    }
    assert content == Title(topic) + Separator(multi);
    content := AppendSections(content, txt, !technical && multi, multi, d);
  }

  /** The `content +=` loop over the explanations. */
  method AppendSections(head: string, txt: bool, headed: bool, multi: bool, d: Dict<string, string>) returns (content: string)
    ensures content == head + Sections(txt, headed, multi, d)
  {
    content := head;
    var i := 0;
    while i < |d|
      invariant 0 <= i <= |d|
      invariant content == head + Sections(txt, headed, multi, d[..i])
    {
      var level, text := d[i].0, d[i].1;
      var section := RenderSection(txt, headed, multi, level, text);
      SectionsSnoc(head, content, txt, headed, multi, d, i, section);
      content := content + section;
      i := i + 1;
    }
    SectionsAll(txt, headed, multi, d);
  }

  /** One pass of the loop: the heading, the stripped text and the separator it appends. */
  method RenderSection(txt: bool, headed: bool, multi: bool, level: string, text: string) returns (section: string)
    ensures section == Section(txt, headed, multi, level, text)
  {
    var heading := "";
    if headed {
      heading := "## " + HeadingName(txt, level) + "\n\n";
    }
    assert heading == Heading(txt, headed, level);
    var separator := "";
    if multi {
      separator := RULE;
    }
    assert separator == Separator(multi);
    section := heading + (Trim(Py, text) + "\n\n") + separator;
  }

  /** Appending the next entry's section to the text so far extends it by that entry. */
  lemma SectionsSnoc(head: string, content: string, txt: bool, headed: bool, multi: bool, d: Dict<string, string>, i: nat, section: string)
    requires i < |d|
    requires content == head + Sections(txt, headed, multi, d[..i])
    requires section == Section(txt, headed, multi, d[i].0, d[i].1)
    ensures content + section == head + Sections(txt, headed, multi, d[..i + 1])
  {
    var pre := d[..i + 1];
    SliceSnoc(d, i);
    assert Sections(txt, headed, multi, pre) == Sections(txt, headed, multi, pre[..i]) + Section(txt, headed, multi, pre[i].0, pre[i].1);
    ExportMenu.Assoc(head, Sections(txt, headed, multi, d[..i]), section);
  }

  lemma SliceSnoc(d: Dict<string, string>, i: nat)
    requires i < |d|
    ensures d[..i + 1][..i] == d[..i] && d[..i + 1][i] == d[i]
  {
  }

  lemma SectionsAll(txt: bool, headed: bool, multi: bool, d: Dict<string, string>)
    ensures Sections(txt, headed, multi, d[..|d|]) == Sections(txt, headed, multi, d)
  {
    assert d[..|d|] == d;
  }

  /**
   * The document always opens with the title. With no explanation it is
   * just the title; with one it is the title and the stripped text, with
   * no separator and no heading; with several it has a separator after the
   * title and ends with one.
   */
  lemma DocumentShape(topic: string, d: Dict<string, string>, technical: bool, txt: bool)
    ensures var doc := Document(topic, d, technical, txt);
      StartsWith(doc, Title(topic))
      && (|d| == 0 ==> doc == Title(topic))
      && (|d| == 1 ==> doc == Title(topic) + (Trim(Py, d[0].1) + "\n\n"))
      && (|d| > 1 ==> StartsWith(doc, Title(topic) + RULE) && |doc| >= |RULE| && doc[|doc| - |RULE|..] == RULE)
  {
    DocumentTitled(topic, d, technical, txt);
    if |d| == 0 {
      DocumentEmpty(topic, technical, txt);
    } else if |d| == 1 {
      DocumentSingle(topic, d, technical, txt);
    } else {
      DocumentSeparated(topic, d, technical, txt);
    }
  }

  lemma DocumentTitled(topic: string, d: Dict<string, string>, technical: bool, txt: bool)
    ensures StartsWith(Document(topic, d, technical, txt), Title(topic))
  {
    var multi := |d| > 1;
    ExportMenu.PrefixOfAppend(Title(topic), Separator(multi), Sections(txt, !technical && multi, multi, d));
  }

  lemma DocumentEmpty(topic: string, technical: bool, txt: bool)
    ensures Document(topic, [], technical, txt) == Title(topic)
  {
    assert Document(topic, [], technical, txt) == Title(topic) + [] + [];
  }

  lemma DocumentSeparated(topic: string, d: Dict<string, string>, technical: bool, txt: bool)
    requires |d| > 1
    ensures var doc := Document(topic, d, technical, txt);
      StartsWith(doc, Title(topic) + RULE) && |doc| >= |RULE| && doc[|doc| - |RULE|..] == RULE
  {
    var doc := Document(topic, d, technical, txt);
    var x := DocumentMulti(topic, d, technical, txt);
    var head := Title(topic) + RULE;
    assert doc[|x|..] == RULE;
    assert doc[..|head|] == x[..|head|];
  }

  /** A document of one explanation is the title and the stripped text. */
  lemma DocumentSingle(topic: string, d: Dict<string, string>, technical: bool, txt: bool)
    requires |d| == 1
    ensures Document(topic, d, technical, txt) == Title(topic) + (Trim(Py, d[0].1) + "\n\n")
  {
    var multi := |d| > 1;
    var headed := !technical && multi;
    var body := Sections(txt, headed, multi, d);
    SectionsSingle(txt, headed, multi, d);
    assert Separator(multi) == [];
    assert Document(topic, d, technical, txt) == Title(topic) + [] + body;
  }

  lemma SectionsSingle(txt: bool, headed: bool, multi: bool, d: Dict<string, string>)
    requires |d| == 1 && !headed && !multi
    ensures Sections(txt, headed, multi, d) == Trim(Py, d[0].1) + "\n\n"
  {
    var level, text := d[0].0, d[0].1;
    assert d == [(level, text)];
    SectionsOne(txt, headed, multi, level, text);
    SectionUnheaded(txt, headed, multi, level, text);
  }

  lemma SectionsOne(txt: bool, headed: bool, multi: bool, level: string, text: string)
    ensures Sections(txt, headed, multi, [(level, text)]) == Section(txt, headed, multi, level, text)
  {
    var d := [(level, text)];
    assert d[..0] == [];
    assert Sections(txt, headed, multi, d) == [] + Section(txt, headed, multi, level, text);
  }

  lemma SectionUnheaded(txt: bool, headed: bool, multi: bool, level: string, text: string)
    requires !headed && !multi
    ensures Section(txt, headed, multi, level, text) == Trim(Py, text) + "\n\n"
  {
    var tail := Trim(Py, text) + "\n\n";
    assert Heading(txt, headed, level) == [];
    assert Separator(multi) == [];
    assert Section(txt, headed, multi, level, text) == [] + tail + [];
  }

  /** A document of several explanations is some text that starts with the title and a separator, then a last separator. */
  lemma DocumentMulti(topic: string, d: Dict<string, string>, technical: bool, txt: bool) returns (x: string)
    requires |d| > 1
    ensures Document(topic, d, technical, txt) == x + RULE
    ensures StartsWith(x, Title(topic) + RULE)
  {
    var n := |d| - 1;
    var headed := !technical && |d| > 1;
    var head := Title(topic) + RULE;
    var front := Sections(txt, headed, true, d[..n]);
    var last := Heading(txt, headed, d[n].0) + (Trim(Py, d[n].1) + "\n\n");
    assert Section(txt, headed, true, d[n].0, d[n].1) == last + RULE;
    assert Sections(txt, headed, true, d) == front + (last + RULE);
    x := head + front + last;
    ExportMenu.Assoc(front, last, RULE);
    ExportMenu.Assoc(head, front + last, RULE);
    ExportMenu.Assoc(head, front, last);
    ExportMenu.PrefixOfAppend(head, front, last);
  }

  /** Without a `technical_depth` entry, or without headings, txt and md render the same sections. */
  lemma {:induction false} SectionsAgree(headed: bool, multi: bool, d: Dict<string, string>)
    requires !headed || TECHNICAL_DEPTH !in Keys(d)
    ensures Sections(true, headed, multi, d) == Sections(false, headed, multi, d)
    decreases |d|
  {
    if d != [] {
      var n := |d| - 1;
      assert Keys(d[..n]) == Keys(d)[..n];
      assert d[n].0 == Keys(d)[n];
      SectionsAgree(headed, multi, d[..n]);
    }
  }

  /** `slug`: the topic lower-cased, each space made a dash, cut to 30 characters. */
  function Slug(topic: string): string {
    var r := ReplaceAll(Lower(topic), " ", "-");
    if |r| <= 30 then r else r[..30]
  }

  function DashChar(c: char): char {
    if c == ' ' then '-' else c
  }

  /** Replacing each space by a dash maps the text character by character. */
  lemma {:induction false} ReplaceSpaces(s: string)
    ensures var r := ReplaceAll(s, " ", "-");
      |r| == |s| && forall i :: 0 <= i < |s| ==> r[i] == DashChar(s[i])
    decreases |s|
  {
    if s != [] {
      ReplaceSpaces(s[1..]);
      var r := ReplaceAll(s, " ", "-");
      if s[0] == ' ' {
        assert StartsWith(s, " ");
        assert r == "-" + ReplaceAll(s[1..], " ", "-");
      } else {
        assert !StartsWith(s, " ");
        assert r == [s[0]] + ReplaceAll(s[1..], " ", "-");
      }
    }
  }

  /**
   * The slug keeps the first 30 characters of the topic, each lower-cased
   * and with spaces made dashes: it holds no space and no capital letter.
   */
  lemma SlugShape(topic: string)
    ensures var s := Slug(topic);
      |s| == (if |topic| <= 30 then |topic| else 30)
      && (forall i :: 0 <= i < |s| ==> s[i] == DashChar(LowerChar(topic[i])))
      && (forall i :: 0 <= i < |s| ==> s[i] != ' ' && !('A' <= s[i] <= 'Z'))
  {
    ReplaceSpaces(Lower(topic));
  }

  /** `filename_base`. */
  function FileBase(topic: string, technical: bool): string {
    if technical then Slug(topic) + "-technical-depth" else "knowbear-" + Slug(topic)
  }

  /** The attachment's file name: the base, a dot and the format. */
  function FileName(base: string, format: string): string {
    base + "." + format
  }

  /** What `Export` sends, given the explanations it ends up exporting. */
  function Exported(req: ExportRequest, isPro: bool, order: seq<string>, generate: string -> Outcome): Dict<string, string> {
    Ordered(Filled(req.explanations, order, generate), IsTechnical(req), isPro)
  }

  /**
   * The answer of the handler with the level lists bound: 422 for a body
   * that breaks the field constraints, a txt, md or json download, and 400
   * for `pdf`, whose branch is disabled.
   */
  function ExportAnswer(req: ExportRequest, isPro: bool, order: seq<string>, generate: string -> Outcome): (r: Result<Download, HttpError>)
    ensures !WellFormed(req) ==> r == Err(Unprocessable)
    ensures WellFormed(req) ==> (r.Ok? <==> req.format != "pdf")
    ensures WellFormed(req) && r.Err? ==> r.error == BadRequest(FORMAT_REFUSED)
    ensures r.Ok? ==> r.value.fileName == FileName(FileBase(req.topic, IsTechnical(req)), req.format)
    ensures r.Ok? ==> (r.value.body.JsonBody? <==> req.format == "json")
  {
    if !WellFormed(req) then Err(Unprocessable)
    else
      var technical := IsTechnical(req);
      var e := Exported(req, isPro, order, generate);
      var base := FileBase(req.topic, technical);
      if req.format == "txt" then Ok(Download("text/plain", FileName(base, "txt"), TextBody(Document(req.topic, e, technical, true))))
      else if req.format == "md" then Ok(Download("text/markdown", FileName(base, "md"), TextBody(Document(req.topic, e, technical, false))))
      else if req.format == "json" then Ok(Download("application/json", FileName(base, "json"), JsonBody(req.topic, e)))
      else Err(BadRequest(FORMAT_REFUSED))
  }

  /**
   * `export_explanations`, with the user's pro status and each level's
   * generation outcome as inputs and `order` the iteration order of the
   * missing levels.
   */
  method Export(req: ExportRequest, isPro: bool, order: seq<string>, generate: string -> Outcome)
    returns (r: Result<Download, HttpError>)
    requires Enumerates(order, Missing(req.explanations, IsTechnical(req), isPro))
    ensures r == ExportAnswer(req, isPro, order, generate)
  {
    if !WellFormed(req) {
      return Err(Unprocessable);
    }
    var technical := req.mode == TECHNICAL_DEPTH;
    var filled := FillMissing(req.explanations, order, generate);
    var ordered := Order(filled, technical, isPro);
    var base := FileBase(req.topic, technical);
    if req.format == "txt" {
      var content := Render(req.topic, ordered, technical, true);
      r := Ok(Download("text/plain", FileName(base, "txt"), TextBody(content)));
    } else if req.format == "md" {
      var content := Render(req.topic, ordered, technical, false);
      r := Ok(Download("text/markdown", FileName(base, "md"), TextBody(content)));
    } else if req.format == "json" {
      r := Ok(Download("application/json", FileName(base, "json"), JsonBody(req.topic, ordered)));
    } else {
      r := Err(BadRequest(FORMAT_REFUSED));
    }
  }

  /**
   * Outside technical depth mode the download holds exactly the canonical
   * levels (the premium ones only for a pro), in canonical order; each keeps
   * the text the request sent, and a level the request lacked holds its
   * generated text or the generation error. Anything else sent is dropped.
   */
  lemma ExportedCanonical(req: ExportRequest, isPro: bool, order: seq<string>, generate: string -> Outcome)
    requires !IsTechnical(req)
    requires Enumerates(order, Missing(req.explanations, false, isPro))
    ensures Keys(Exported(req, isPro, order, generate)) == CanonicalNames(isPro)
    ensures forall l :: l in CanonicalNames(isPro) ==>
      Get(Exported(req, isPro, order, generate), l) == if l in Keys(req.explanations) then Get(req.explanations, l) else Some(FillText(generate(l)))
    ensures forall l :: l !in CanonicalNames(isPro) ==> Get(Exported(req, isPro, order, generate), l) == None
  {
    var names := CanonicalNames(isPro);
    var d := req.explanations;
    var f := Filled(d, order, generate);
    MissingLevels(d, false, isPro);
    assert forall l :: l in order <==> l in Missing(d, false, isPro);
    forall l | l in names
      ensures Get(f, l) == if l in Keys(d) then Get(d, l) else Some(FillText(generate(l)))
      ensures Get(f, l).Some?
    {
      FilledGet(d, order, generate, l);
      GetFound(d, l);
    }
    CanonicalDistinct(isPro);
    PresentAll(f, names);
    PickKeys(f, names);
    forall l ensures Get(Pick(f, names), l) == if l in names then Get(f, l) else None {
      PickGet(f, names, l);
    }
  }

  /**
   * In technical depth mode the download holds only `technical_depth` when
   * the request sent it; when the request sent nothing it holds the
   * generated `technical_depth` text; otherwise it holds what was sent,
   * unchanged.
   */
  lemma ExportedTechnical(req: ExportRequest, isPro: bool, order: seq<string>, generate: string -> Outcome)
    requires IsTechnical(req)
    requires Enumerates(order, Missing(req.explanations, true, isPro))
    ensures var d := req.explanations;
      var e := Exported(req, isPro, order, generate);
      (TECHNICAL_DEPTH in Keys(d) ==> Keys(e) == [TECHNICAL_DEPTH] && Get(e, TECHNICAL_DEPTH) == Get(d, TECHNICAL_DEPTH))
      && (d == [] ==> e == [(TECHNICAL_DEPTH, FillText(generate(TECHNICAL_DEPTH)))])
      && (d != [] && TECHNICAL_DEPTH !in Keys(d) ==> e == d)
  {
    var d := req.explanations;
    MissingLevels(d, true, isPro);
    var s := set l | l in order;
    DistinctCard(order);
    if d == [] {
      assert s == {TECHNICAL_DEPTH};
      assert |order| == 1;
      assert order[0] in s;
      assert order == [TECHNICAL_DEPTH];
      assert order[..0] == [];
      var text := FillText(generate(TECHNICAL_DEPTH));
      var f := Filled(d, order, generate);
      assert Filled(d, order[..0], generate) == [];
      assert f == Put(Filled(d, order[..0], generate), order[0], FillText(generate(order[0])));
      assert f == [(TECHNICAL_DEPTH, text)];
      assert Get(f, TECHNICAL_DEPTH) == Some(text);
    } else {
      assert s == {};
      assert order == [];
      GetFound(d, TECHNICAL_DEPTH);
    }
  }

  /**
   * The txt-only `TECHNICAL DEPTH` heading is never written: outside
   * technical depth mode the ordering has dropped `technical_depth`, and in
   * that mode there are no headings. The txt and md documents are the same.
   */
  lemma TechnicalHeadingUnreachable(req: ExportRequest, isPro: bool, order: seq<string>, generate: string -> Outcome)
    ensures var e := Exported(req, isPro, order, generate);
      Document(req.topic, e, IsTechnical(req), true) == Document(req.topic, e, IsTechnical(req), false)
  {
    var e := Exported(req, isPro, order, generate);
    if !IsTechnical(req) {
      var f := Filled(req.explanations, order, generate);
      PickGet(f, CanonicalNames(isPro), TECHNICAL_DEPTH);
      CanonicalDistinct(isPro);
      GetFound(e, TECHNICAL_DEPTH);
    }
    SectionsAgree(!IsTechnical(req) && |e| > 1, |e| > 1, e);
  }

  /** The handler as written: the unbound `FREE_LEVELS` raises outside technical depth mode, and the global handler answers 500. */
  function ExportAsWritten(req: ExportRequest, isPro: bool, order: seq<string>, generate: string -> Outcome): Result<Download, HttpError> {
    if !WellFormed(req) then Err(Unprocessable)
    else if !IsTechnical(req) then Err(InternalError)
    else ExportAnswer(req, isPro, order, generate)
  }

  /**
   * As written, every well-formed export outside technical depth mode fails
   * with 500, even for the formats that would otherwise be served; for
   * example the default `fast` mode and the default `txt` format.
   */
  lemma UnboundLevelLists(req: ExportRequest, isPro: bool, order: seq<string>, generate: string -> Outcome)
    requires WellFormed(req) && !IsTechnical(req) && req.format != "pdf"
    ensures ExportAsWritten(req, isPro, order, generate) == Err(InternalError)
    ensures ExportAnswer(req, isPro, order, generate).Ok?
  {
  }

  /** A concrete request the written handler refuses: `{"topic": "Gravity", "explanations": {}}` with every default. */
  lemma UnboundLevelListsExample(generate: string -> Outcome)
    ensures var req := ExportRequest("Gravity", [], "txt", false, "fast");
      ExportAsWritten(req, false, FreeLevelNames(), generate) == Err(InternalError)
      && ExportAnswer(req, false, FreeLevelNames(), generate).Ok?
  {
    var req := ExportRequest("Gravity", [], "txt", false, "fast");
    assert req.mode[0] != TECHNICAL_DEPTH[0];
    UnboundLevelLists(req, false, FreeLevelNames(), generate);
  }

  /** Outside technical depth mode, a request without explanations has every canonical level generated. */
  lemma MissingFromNothing(isPro: bool)
    ensures Enumerates(CanonicalNames(isPro), Missing([], false, isPro))
  {
    CanonicalDistinct(isPro);
    assert Keys<string, string>([]) == [];
  }
}
