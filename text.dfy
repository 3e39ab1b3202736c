/**
 * String helpers shared by the client (JavaScript) and the backend (Python).
 * Characters are restricted to the behaviour both runtimes have on ASCII:
 * the two languages disagree on which control characters are whitespace,
 * so every whitespace-sensitive helper says which language it follows.
 */
module Text {

  /** Whose notion of whitespace a helper follows. */
  datatype Lang = Js | Py

  /**
   * ASCII whitespace. JavaScript (`trim`, regex `\s`): tab, line feed,
   * vertical tab, form feed, carriage return and space. Python
   * (`str.strip`, `str.isspace`, regex `\s` on `str`) adds the four
   * separators U+001C to U+001F.
   */
  predicate IsSpace(lang: Lang, c: char) {
    c == ' ' || c == '\t' || c == '\n' || c == '\r' || c == '\U{0B}' || c == '\U{0C}'
    || (lang == Py && '\U{1C}' <= c <= '\U{1F}')
  }

  predicate AllSpace(lang: Lang, s: string) {
    forall i :: 0 <= i < |s| ==> IsSpace(lang, s[i])
  }

  /** Drops leading whitespace. */
  function TrimStart(lang: Lang, s: string): (r: string)
    ensures |r| <= |s| && r == s[|s| - |r|..]
    ensures AllSpace(lang, s[..|s| - |r|])
    ensures r == [] || !IsSpace(lang, r[0])
  {
    if s != [] && IsSpace(lang, s[0]) then TrimStart(lang, s[1..]) else s
  }

  /** Drops trailing whitespace. */
  function TrimEnd(lang: Lang, s: string): (r: string)
    ensures |r| <= |s| && r == s[..|r|]
    ensures AllSpace(lang, s[|r|..])
    ensures r == [] || !IsSpace(lang, r[|r| - 1])
  {
    if s != [] && IsSpace(lang, s[|s| - 1]) then TrimEnd(lang, s[..|s| - 1]) else s
  }

  /** `String.prototype.trim` (Js) or `str.strip()` (Py). */
  function Trim(lang: Lang, s: string): string {
    TrimEnd(lang, TrimStart(lang, s))
  }

  /** A string trims to nothing exactly when it is all whitespace. */
  lemma TrimBlank(lang: Lang, s: string)
    ensures Trim(lang, s) == [] <==> AllSpace(lang, s)
  {
    var t := TrimStart(lang, s);
    if t != [] {
      assert t[0] == s[|s| - |t|];
    } else {
      assert s[..|s|] == s;
    }
  }

  /** Trailing whitespace after a string that does not end in whitespace is exactly what `TrimEnd` removes. */
  lemma {:induction false} TrimEndSpaces(lang: Lang, a: string, w: string)
    requires AllSpace(lang, w)
    requires a == [] || !IsSpace(lang, a[|a| - 1])
    ensures TrimEnd(lang, a + w) == a
    decreases |w|
  {
    if w == [] {
      assert a + w == a;
    } else {
      var w' := w[..|w| - 1];
      assert (a + w)[..|a + w| - 1] == a + w';
      TrimEndSpaces(lang, a, w');
    }
  }

  /** `TrimStart` leaves alone a string that does not start with whitespace. */
  lemma TrimStartKeeps(lang: Lang, s: string)
    requires s != [] && !IsSpace(lang, s[0])
    ensures TrimStart(lang, s) == s
  {
  }

  function LowerChar(c: char): char {
    if 'A' <= c <= 'Z' then (c as int + 32) as char else c
  }

  function UpperChar(c: char): char {
    if 'a' <= c <= 'z' then (c as int - 32) as char else c
  }

  /** `toLowerCase()` / `lower()` on ASCII letters. */
  function Lower(s: string): (r: string)
    ensures |r| == |s| && forall i :: 0 <= i < |s| ==> r[i] == LowerChar(s[i])
  {
    if s == [] then [] else [LowerChar(s[0])] + Lower(s[1..])
  }

  /** `toUpperCase()` / `upper()` on ASCII letters. */
  function Upper(s: string): (r: string)
    ensures |r| == |s| && forall i :: 0 <= i < |s| ==> r[i] == UpperChar(s[i])
  {
    if s == [] then [] else [UpperChar(s[0])] + Upper(s[1..])
  }

  predicate StartsWith(s: string, prefix: string) {
    |prefix| <= |s| && s[..|prefix|] == prefix
  }

  /** `s.includes(sub)` / `sub in s`. */
  predicate Contains(s: string, sub: string)
    decreases |s|
  {
    StartsWith(s, sub) || (s != [] && Contains(s[1..], sub))
  }

  /** JavaScript `s.replace(pat, rep)` with a string pattern: first occurrence only. */
  function ReplaceFirst(s: string, pat: string, rep: string): string
    requires pat != []
  {
    if StartsWith(s, pat) then rep + s[|pat|..]
    else if s == [] then []
    else [s[0]] + ReplaceFirst(s[1..], pat, rep)
  }

  /** Python `s.replace(pat, rep)`: every non-overlapping occurrence, left to right. */
  function ReplaceAll(s: string, pat: string, rep: string): string
    requires pat != []
    decreases |s|
  {
    if StartsWith(s, pat) then rep + ReplaceAll(s[|pat|..], pat, rep)
    else if s == [] then []
    else [s[0]] + ReplaceAll(s[1..], pat, rep)
  }

  function DigitChar(d: nat): char
    requires d < 10
  {
    ('0' as int + d) as char
  }

  /** The decimal text of a natural number, as a template literal prints it. */
  function NatToString(n: nat): (r: string)
    ensures r != []
    ensures forall i :: 0 <= i < |r| ==> '0' <= r[i] <= '9'
  {
    if n < 10 then [DigitChar(n)] else NatToString(n / 10) + [DigitChar(n % 10)]
  }

  /** Concatenation of a sequence of strings. */
  function Concat(parts: seq<string>): string {
    if parts == [] then [] else Concat(parts[..|parts| - 1]) + parts[|parts| - 1]
  }

  /** Concatenation takes its first part first. */
  lemma {:induction false} ConcatCons(a: string, rest: seq<string>)
    ensures Concat([a] + rest) == a + Concat(rest)
    decreases |rest|
  {
    if rest == [] {
      assert [a] + rest == [a];
    } else {
      var n := |rest| - 1;
      assert ([a] + rest)[..|rest|] == [a] + rest[..n];
      ConcatCons(a, rest[..n]);
    }
  }
}
