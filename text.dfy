/**
 * The two string helpers of the editor: `String.prototype.trim`, which every
 * form read goes through, and `escapeHtml` (create.js:129; play.js:255 holds
 * the same definition).
 */
module Text {
  import opened Wrappers

  /** The ECMAScript WhiteSpace and LineTerminator code points that `trim` removes. */
  predicate IsWhitespace(c: char) {
    || c == ' ' || c == '\t' || c == '\n' || c == '\r' || c == '\U{000B}' || c == '\U{000C}'
    || c == '\U{00A0}' || c == '\U{1680}' || ('\U{2000}' <= c <= '\U{200A}')
    || c == '\U{2028}' || c == '\U{2029}' || c == '\U{202F}' || c == '\U{205F}'
    || c == '\U{3000}' || c == '\U{FEFF}'
  }

  predicate AllWhitespace(s: string) {
    forall i :: 0 <= i < |s| ==> IsWhitespace(s[i])
  }

  /** The end of the run of whitespace in `s` that starts at `i`. */
  function LeadingEnd(s: string, i: nat): (n: nat)
    requires i <= |s|
    ensures i <= n <= |s|
    ensures forall j :: i <= j < n ==> IsWhitespace(s[j])
    ensures n == |s| || !IsWhitespace(s[n])
    decreases |s| - i
  {
    if i < |s| && IsWhitespace(s[i]) then LeadingEnd(s, i + 1) else i
  }

  /** The number of whitespace characters `s` starts with. */
  function Leading(s: string): (n: nat)
    ensures n <= |s|
    ensures forall i :: 0 <= i < n ==> IsWhitespace(s[i])
    ensures n == |s| || !IsWhitespace(s[n])
  {
    LeadingEnd(s, 0)
  }

  /** The start of the run of whitespace in `s` that ends at `j`. */
  function TrailingStart(s: string, j: nat): (n: nat)
    requires j <= |s|
    ensures n <= j
    ensures forall i :: n <= i < j ==> IsWhitespace(s[i])
    ensures n == 0 || !IsWhitespace(s[n - 1])
  {
    if j > 0 && IsWhitespace(s[j - 1]) then TrailingStart(s, j - 1) else j
  }

  /** `s.trim()`: the slice of `s` between its leading and its trailing whitespace.
      It neither starts nor ends with whitespace, only whitespace follows it, and
      it is empty exactly when `s` is all whitespace. */
  function Trim(s: string): (r: string)
    ensures Leading(s) + |r| <= |s| && r == s[Leading(s)..Leading(s) + |r|]
    ensures r == [] || (!IsWhitespace(r[0]) && !IsWhitespace(r[|r| - 1]))
    ensures forall i :: Leading(s) + |r| <= i < |s| ==> IsWhitespace(s[i])
    ensures r == [] <==> AllWhitespace(s)
  {
    var a := Leading(s);
    if a == |s| then
      []
    else
      var e := TrailingStart(s, |s|);
      assert a < e;
      s[a..e]
  }

  /** Trimming twice changes nothing more. */
  lemma TrimIdempotent(s: string)
    ensures Trim(Trim(s)) == Trim(s)
  {
    var r := Trim(s);
    if r != [] {
      assert Leading(r) == 0;
      assert TrailingStart(r, |r|) == |r|;
      assert r[0..|r|] == r;
    }
  }

  /** The characters `escapeHtml` rewrites to entities. */
  predicate IsMarkup(c: char) {
    c == '&' || c == '<' || c == '>' || c == '"' || c == '\''
  }

  /** The characters that end or open a tag or an attribute value. */
  predicate Unsafe(c: char) {
    c == '<' || c == '>' || c == '"' || c == '\''
  }

  function EscapeChar(c: char): (r: string)
    ensures !IsMarkup(c) ==> r == [c]
    ensures forall i :: 0 <= i < |r| ==> !Unsafe(r[i])
  {
    match c
    case '&' => "&amp;"
    case '<' => "&lt;"
    case '>' => "&gt;"
    case '"' => "&quot;"
    case '\'' => "&#39;"
    case _ => [c]
  }

  /** The replacement of every markup character of `s` by its entity. */
  function EscapeText(s: string): (r: string)
    ensures |r| >= |s|
    ensures forall i :: 0 <= i < |r| ==> !Unsafe(r[i])
  {
    if s == [] then [] else EscapeChar(s[0]) + EscapeText(s[1..])
  }

  /** `escapeHtml(s)`: `(s || '')` with each of & < > " ' replaced by its entity. */
  function EscapeHtml(s: Option<string>): (r: string)
    ensures s.None? || s.value == "" ==> r == ""
    ensures forall i :: 0 <= i < |r| ==> !Unsafe(r[i])
  {
    EscapeText(if s.Some? then s.value else "")
  }

  /** The decoding of the five entities `escapeHtml` produces, left to right. */
  function Unescape(s: string): string
    decreases |s|
  {
    if s == [] then []
    else if s[0] != '&' then [s[0]] + Unescape(s[1..])
    else if "&amp;" <= s then ['&'] + Unescape(s[5..])
    else if "&lt;" <= s then ['<'] + Unescape(s[4..])
    else if "&gt;" <= s then ['>'] + Unescape(s[4..])
    else if "&quot;" <= s then ['"'] + Unescape(s[6..])
    else if "&#39;" <= s then ['\''] + Unescape(s[5..])
    else [s[0]] + Unescape(s[1..])
  }

  /** Decoding one escaped character in front of any text gives that character back. */
  lemma UnescapeEscapedChar(c: char, t: string)
    ensures Unescape(EscapeChar(c) + t) == [c] + Unescape(t)
  {
    var e := EscapeChar(c) + t;
    match c
    case '&' => assert e[..5] == "&amp;" && e[5..] == t;
    case '<' => assert e[1] == 'l' && e[..4] == "&lt;" && e[4..] == t;
    case '>' => assert e[1] == 'g' && e[..4] == "&gt;" && e[4..] == t;
    case '"' => assert e[1] == 'q' && e[..6] == "&quot;" && e[6..] == t;
    case '\'' => assert e[1] == '#' && e[..5] == "&#39;" && e[5..] == t;
    case _ => assert e[0] == c && e[1..] == t;
  }

  /** Escaping loses nothing: decoding the entities gives the input back. */
  lemma {:induction false} EscapeRoundTrip(s: string)
    ensures Unescape(EscapeText(s)) == s
  {
    if s != [] {
      assert EscapeText(s) == EscapeChar(s[0]) + EscapeText(s[1..]);
      UnescapeEscapedChar(s[0], EscapeText(s[1..]));
      EscapeRoundTrip(s[1..]);
      assert s == [s[0]] + s[1..];
    }
  }

  /** Text without markup characters passes through unchanged. */
  lemma {:induction false} EscapePlainText(s: string)
    requires forall i :: 0 <= i < |s| ==> !IsMarkup(s[i])
    ensures EscapeText(s) == s
  {
    if s != [] {
      EscapePlainText(s[1..]);
    }
  }

  /** Escaping works character by character: it distributes over concatenation. */
  lemma {:induction false} EscapeConcat(s: string, t: string)
    ensures EscapeText(s + t) == EscapeText(s) + EscapeText(t)
  {
    if s == [] {
      assert s + t == t;
    } else {
      assert (s + t)[1..] == s[1..] + t;
      EscapeConcat(s[1..], t);
    }
  }
}
