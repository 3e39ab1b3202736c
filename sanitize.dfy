/**
 * Topic validation on the backend (api/utils.py): `sanitize_topic` strips
 * the topic, bounds its length, admits only word characters, whitespace and
 * a little punctuation, and HTML-escapes what it returns.
 */
module Sanitize {
  import opened Wrappers
  import opened Text

  /** `MAX_TOPIC_LENGTH`. */
  const MAX_TOPIC_LENGTH := 200

  const TOPIC_REQUIRED := "Topic required"
  const TOPIC_TOO_LONG := "Topic exceeds 200 chars"
  const INVALID_CHARACTERS := "Invalid characters in topic"

  /** `\w` on ASCII: a letter, a digit or an underscore. */
  predicate IsWordChar(c: char) {
    'a' <= c <= 'z' || 'A' <= c <= 'Z' || '0' <= c <= '9' || c == '_'
  }

  /** One character of the class `[\w\s\-.,!?'"()]`. */
  predicate Allowed(c: char) {
    IsWordChar(c) || IsSpace(Py, c) || c == '-' || c == '.' || c == ',' || c == '!' || c == '?'
    || c == '\'' || c == '"' || c == '(' || c == ')'
  }

  /** `ALLOWED_PATTERN.match(t)`: one or more allowed characters and nothing else. */
  predicate MatchesPattern(t: string) {
    t != [] && forall i :: 0 <= i < |t| ==> Allowed(t[i])
  }

  /** `html.escape` of one character, quotes included. */
  function EscapeChar(c: char): string {
    if c == '&' then "&amp;"
    else if c == '<' then "&lt;"
    else if c == '>' then "&gt;"
    else if c == '"' then "&quot;"
    else if c == '\'' then "&#x27;"
    else [c]
  }

  /** `html.escape(s)`. */
  function Escape(s: string): string {
    if s == [] then [] else EscapeChar(s[0]) + Escape(s[1..])
  }

  /** The decoder of the five references `html.escape` writes; any other character stands for itself. */
  function Unescape(s: string): string
    decreases |s|
  {
    if s == [] then []
    else if StartsWith(s, "&amp;") then "&" + Unescape(s[5..])
    else if StartsWith(s, "&lt;") then "<" + Unescape(s[4..])
    else if StartsWith(s, "&gt;") then ">" + Unescape(s[4..])
    else if StartsWith(s, "&quot;") then "\"" + Unescape(s[6..])
    else if StartsWith(s, "&#x27;") then "'" + Unescape(s[6..])
    else [s[0]] + Unescape(s[1..])
  }

  /** Decoding one escaped character in front of any text gives the character back. */
  lemma UnescapeChar(c: char, rest: string)
    ensures Unescape(EscapeChar(c) + rest) == [c] + Unescape(rest)
  {
    if c == '&' {
      UnescapeAmp(rest);
    } else if c == '<' {
      UnescapeLt(rest);
    } else if c == '>' {
      UnescapeGt(rest);
    } else if c == '"' {
      UnescapeQuot(rest);
    } else if c == '\'' {
      UnescapeApos(rest);
    } else {
      UnescapePlain(c, rest);
    }
  }

  lemma UnescapeAmp(rest: string)
    ensures Unescape("&amp;" + rest) == "&" + Unescape(rest)
  {
    var s := "&amp;" + rest;
    assert s[..5] == "&amp;" && s[5..] == rest;
  }

  lemma UnescapeLt(rest: string)
    ensures Unescape("&lt;" + rest) == "<" + Unescape(rest)
  {
    var s := "&lt;" + rest;
    assert s[..4] == "&lt;" && s[4..] == rest;
    assert s[1] != "&amp;"[1];
  }

  lemma UnescapeGt(rest: string)
    ensures Unescape("&gt;" + rest) == ">" + Unescape(rest)
  {
    var s := "&gt;" + rest;
    assert s[..4] == "&gt;" && s[4..] == rest;
    assert s[1] != "&amp;"[1] && s[1] != "&lt;"[1];
  }

  lemma UnescapeQuot(rest: string)
    ensures Unescape("&quot;" + rest) == "\"" + Unescape(rest)
  {
    var s := "&quot;" + rest;
    assert s[..6] == "&quot;" && s[6..] == rest;
    assert s[1] != "&amp;"[1] && s[1] != "&lt;"[1] && s[1] != "&gt;"[1];
  }

  lemma UnescapeApos(rest: string)
    ensures Unescape("&#x27;" + rest) == "'" + Unescape(rest)
  {
    var s := "&#x27;" + rest;
    assert s[..6] == "&#x27;" && s[6..] == rest;
    assert s[1] != "&amp;"[1] && s[1] != "&lt;"[1] && s[1] != "&gt;"[1] && s[1] != "&quot;"[1];
  }

  lemma UnescapePlain(c: char, rest: string)
    requires c !in {'&', '<', '>', '"', '\''}
    ensures Unescape([c] + rest) == [c] + Unescape(rest)
  {
    var s := [c] + rest;
    assert s[0] == c && s[1..] == rest;
    assert s[0] != "&amp;"[0];
  }

  /** Escaping loses nothing: decoding the escaped text gives the text back. */
  lemma {:induction false} EscapeRoundTrip(s: string)
    ensures Unescape(Escape(s)) == s
  {
    if s != [] {
      EscapeRoundTrip(s[1..]);
      UnescapeChar(s[0], Escape(s[1..]));
    }
  }

  /** The escaped text holds no character that could open a tag or close an attribute. */
  lemma {:induction false} EscapeSafe(s: string)
    ensures forall i :: 0 <= i < |Escape(s)| ==> Escape(s)[i] !in {'<', '>', '"', '\''}
  {
    if s != [] {
      EscapeSafe(s[1..]);
      var e := EscapeChar(s[0]);
      assert forall i :: 0 <= i < |e| ==> e[i] !in {'<', '>', '"', '\''};
      assert Escape(s) == e + Escape(s[1..]);
    }
  }

  /** Text without `&`, `<`, `>` and quotes is returned unchanged. */
  lemma {:induction false} EscapeKeepsPlain(s: string)
    requires forall i :: 0 <= i < |s| ==> s[i] !in {'&', '<', '>', '"', '\''}
    ensures Escape(s) == s
  {
    if s != [] {
      EscapeKeepsPlain(s[1..]);
    }
  }

  /**
   * `sanitize_topic`: an empty topic is refused outright; otherwise the
   * stripped topic must be at most 200 characters long and match the
   * pattern, and its escaped form is returned. `Err` carries the
   * `ValueError` message; the length is checked before the characters, so
   * an over-long topic is refused as too long whatever it holds.
   */
  function SanitizeTopic(topic: string): (r: Result<string, string>)
    ensures r.Err? ==> r.error in {TOPIC_REQUIRED, TOPIC_TOO_LONG, INVALID_CHARACTERS}
    ensures topic == [] <==> r == Err(TOPIC_REQUIRED)
    ensures r == Err(TOPIC_TOO_LONG) <==> topic != [] && |Trim(Py, topic)| > MAX_TOPIC_LENGTH
    ensures r == Err(INVALID_CHARACTERS) <==>
      topic != [] && |Trim(Py, topic)| <= MAX_TOPIC_LENGTH && !MatchesPattern(Trim(Py, topic))
    ensures r.Ok? <==> topic != [] && |Trim(Py, topic)| <= MAX_TOPIC_LENGTH && MatchesPattern(Trim(Py, topic))
    ensures r.Ok? ==> Unescape(r.value) == Trim(Py, topic)
  {
    if topic == [] then Err(TOPIC_REQUIRED)
    else
      var t := Trim(Py, topic);
      if |t| > MAX_TOPIC_LENGTH then Err(TOPIC_TOO_LONG)
      else if !MatchesPattern(t) then Err(INVALID_CHARACTERS)
      else
        EscapeRoundTrip(t);
        Ok(Escape(t))
  }

  /**
   * The length limit applies after stripping and is inclusive: a topic of
   * 200 allowed characters is accepted whatever whitespace surrounds it,
   * and one of 201 is refused as too long.
   */
  lemma LengthBoundary(core: string, pad: string)
    requires MatchesPattern(core) && !IsSpace(Py, core[0]) && !IsSpace(Py, core[|core| - 1])
    requires AllSpace(Py, pad)
    ensures |core| == 200 ==> SanitizeTopic(pad + core + pad).Ok?
    ensures |core| == 201 ==> SanitizeTopic(pad + core + pad) == Err(TOPIC_TOO_LONG)
  {
    TrimCore(core, pad);
  }

  /** Stripping removes exactly the padding around a core that neither starts nor ends with whitespace. */
  lemma TrimCore(core: string, pad: string)
    requires core != [] && !IsSpace(Py, core[0]) && !IsSpace(Py, core[|core| - 1])
    requires AllSpace(Py, pad)
    ensures Trim(Py, pad + core + pad) == core
  {
    var s := pad + core + pad;
    assert s == pad + (core + pad);
    assert (core + pad)[0] == core[0];
    TrimStartSpaces(pad, core + pad);
    TrimStartKeeps(Py, core + pad);
    assert TrimStart(Py, s) == core + pad;
    TrimEndSpaces(Py, core, pad);
  }

  lemma {:induction false} TrimStartSpaces(w: string, s: string)
    requires AllSpace(Py, w)
    requires s != [] && !IsSpace(Py, s[0])
    ensures TrimStart(Py, w + s) == TrimStart(Py, s)
    decreases |w|
  {
    if w != [] {
      assert (w + s)[1..] == w[1..] + s;
      TrimStartSpaces(w[1..], s);
    } else {
      assert w + s == s;
    }
  }

  /** A non-empty topic of whitespace only strips to nothing, which the pattern refuses. */
  lemma BlankTopic(topic: string)
    requires topic != [] && AllSpace(Py, topic)
    ensures SanitizeTopic(topic) == Err(INVALID_CHARACTERS)
  {
    TrimBlank(Py, topic);
  }

  /**
   * An accepted topic has no `&`, `<` or `>`, so escaping rewrites only
   * its quotes: without quotes the stripped topic is returned as it is.
   */
  lemma AcceptedWithoutQuotes(topic: string)
    requires SanitizeTopic(topic).Ok?
    requires forall i :: 0 <= i < |topic| ==> topic[i] != '"' && topic[i] != '\''
    ensures SanitizeTopic(topic) == Ok(Trim(Py, topic))
  {
    var t := Trim(Py, topic);
    TrimInside(topic);
    forall i | 0 <= i < |t| ensures t[i] !in {'&', '<', '>', '"', '\''} {
      AllowedPlain(t[i]);
    }
    EscapeKeepsPlain(t);
  }

  /** An allowed character other than a quote is one that escaping leaves alone. */
  lemma AllowedPlain(c: char)
    requires Allowed(c) && c != '"' && c != '\''
    ensures c !in {'&', '<', '>', '"', '\''}
  {
  }

  /** Every character of the stripped text is a character of the text. */
  lemma TrimInside(s: string)
    ensures forall i :: 0 <= i < |Trim(Py, s)| ==> Trim(Py, s)[i] in s
  {
    var a := TrimStart(Py, s);
    var b := TrimEnd(Py, a);
    forall i | 0 <= i < |b| ensures b[i] in s {
      assert b[i] == a[i] == s[|s| - |a| + i];
    }
  }
}
