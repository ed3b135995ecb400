/**
 * The string utilities the core relies on: Spring's StringUtils checks,
 * java.lang.String.contains, Stream.distinct on a list of strings, and the
 * "append every item followed by a separator, then strip one trailing
 * separator" idiom used with StringBuilder and replaceAll(sep + "$", "").
 */
module Strings {

  /** StringUtils.isEmpty on a String (a Java null is not modelled). */
  predicate IsEmpty(s: string) {
    |s| == 0
  }

  /** Character.isWhitespace: the ASCII controls 9-13 and 28-31, and the
      Unicode space, line and paragraph separators other than the three
      non-breaking spaces U+00A0, U+2007 and U+202F. */
  predicate IsWhitespace(c: char) {
    || ('\t' <= c <= '\r')
    || ('\U{1C}' <= c <= '\U{1F}')
    || c == ' '
    || c == '\U{1680}'
    || ('\U{2000}' <= c <= '\U{2006}')
    || ('\U{2008}' <= c <= '\U{200A}')
    || c == '\U{2028}' || c == '\U{2029}'
    || c == '\U{205F}' || c == '\U{3000}'
  }

  /** StringUtils.hasText: some character is not whitespace. */
  predicate HasText(s: string) {
    exists i :: 0 <= i < |s| && !IsWhitespace(s[i])
  }

  function AsciiLower(c: char): char {
    if 'A' <= c <= 'Z' then (c as int + 32) as char else c
  }

  /** StringUtils.endsWithIgnoreCase, with ASCII case folding. */
  predicate EndsWithIgnoreCase(str: string, suffix: string) {
    && |suffix| <= |str|
    && forall i :: 0 <= i < |suffix| ==>
         AsciiLower(str[|str| - |suffix| + i]) == AsciiLower(suffix[i])
  }

  /** String.startsWith. */
  predicate StartsWith(s: string, prefix: string) {
    |prefix| <= |s| && s[..|prefix|] == prefix
  }

  /** String.contains: `sub` occurs in `s` at some position. */
  predicate Contains(s: string, sub: string) {
    StartsWith(s, sub) || (s != [] && Contains(s[1..], sub))
  }

  predicate NoDuplicates<T(==)>(s: seq<T>) {
    forall i, j :: 0 <= i < j < |s| ==> s[i] != s[j]
  }

  /** Stream.distinct: keeps one copy of every element. */
  function Distinct(s: seq<string>): (r: seq<string>)
    ensures NoDuplicates(r)
    ensures forall x :: x in r <==> x in s
    ensures |r| <= |s|
    ensures NoDuplicates(s) ==> r == s
  {
    if s == [] then []
    else
      var init := s[..|s| - 1];
      var d := Distinct(init);
      assert forall x :: x in s <==> x in init || x == s[|s| - 1];
      if s[|s| - 1] in d then d else d + [s[|s| - 1]]
  }

  /** Every item followed by `sep`: what the StringBuilder holds after the loop. */
  function Terminated(items: seq<string>, sep: string): string {
    if items == [] then "" else items[0] + sep + Terminated(items[1..], sep)
  }

  /** The items separated by `sep`, with no separator after the last one. */
  function Join(items: seq<string>, sep: string): string {
    if items == [] then ""
    else if |items| == 1 then items[0]
    else items[0] + sep + Join(items[1..], sep)
  }

  /** replaceAll(sep + "$", ""), for a separator without regex metacharacters:
      removes one occurrence of `sep` at the very end of `s`, if there is one. */
  function TrimTrailing(s: string, sep: string): (r: string)
    ensures |sep| <= |s| && s[|s| - |sep|..] == sep ==> r + sep == s
    ensures !(|sep| <= |s| && s[|s| - |sep|..] == sep) ==> r == s
  {
    if |sep| <= |s| && s[|s| - |sep|..] == sep then s[..|s| - |sep|] else s
  }

  /** Whitespace-only text, including tabs and line breaks, has no text; a
      non-breaking space is not whitespace to Java, so it counts as text. */
  lemma HasTextExamples()
    ensures !HasText("") && !HasText(" ") && !HasText(" \t\r\n")
    ensures HasText(" a ") && HasText("\U{A0}")
  {
    assert !IsWhitespace('\U{A0}');
    assert " a "[1] == 'a';
    assert "\U{A0}"[0] == '\U{A0}';
  }

  /** The case-insensitive suffix test as the condition check uses it. */
  lemma EndsWithIgnoreCaseExamples()
    ensures EndsWithIgnoreCase("true", "true") && EndsWithIgnoreCase("TRUE", "true")
    ensures EndsWithIgnoreCase("isTrue", "true")
    ensures !EndsWithIgnoreCase("false", "true") && !EndsWithIgnoreCase("true ", "true")
    ensures !EndsWithIgnoreCase("tru", "true") && !EndsWithIgnoreCase("", "true")
  {
    assert AsciiLower("true "[4]) != AsciiLower("true"[3]);
    assert AsciiLower("false"[1]) != AsciiLower("true"[0]);
  }

  lemma {:induction false} TerminatedConcat(a: seq<string>, b: seq<string>, sep: string)
    ensures Terminated(a + b, sep) == Terminated(a, sep) + Terminated(b, sep)
  {
    if a != [] {
      assert (a + b)[1..] == a[1..] + b;
      TerminatedConcat(a[1..], b, sep);
    } else {
      assert a + b == b;
    }
  }

  lemma {:induction false} TerminatedIsJoinAndSeparator(items: seq<string>, sep: string)
    requires items != []
    ensures Terminated(items, sep) == Join(items, sep) + sep
  {
    if |items| > 1 {
      TerminatedIsJoinAndSeparator(items[1..], sep);
    }
  }

  /** Appending a separator after every item and then stripping one trailing
      separator yields exactly the items joined by the separator, whatever the
      items contain. */
  lemma TrimTerminated(items: seq<string>, sep: string)
    ensures TrimTrailing(Terminated(items, sep), sep) == Join(items, sep)
  {
    if items != [] {
      TerminatedIsJoinAndSeparator(items, sep);
      var t := Terminated(items, sep);
      assert t[|t| - |sep|..] == sep;
      assert t[..|t| - |sep|] == Join(items, sep);
    }
  }
}
