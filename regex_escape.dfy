/**
  `escapeRegex`, which four of the team-lookup routes define identically
  (app/api/teams/search/route.ts:6-8 and its copies), and what an escaped
  query means once it is compiled with the `i` flag: a case-insensitive
  literal search.
*/
module RegexEscape {
  import opened Common

  /** The characters of the class `[.*+?^${}()|[\]\\]`. */
  predicate IsRegexSpecial(c: char)
  {
    c == '.' || c == '*' || c == '+' || c == '?' || c == '^' || c == '$' ||
    c == '{' || c == '}' || c == '(' || c == ')' || c == '|' || c == '[' ||
    c == ']' || c == '\\'
  }

  /** `str.replace(/[.*+?^${}()|[\]\\]/g, '\\$&')`. */
  function EscapeRegex(s: string): (r: string)
    ensures (forall i :: 0 <= i < |s| ==> !IsRegexSpecial(s[i])) ==> r == s
    ensures |s| <= |r| <= 2 * |s|
  {
    if |s| == 0 then []
    else (if IsRegexSpecial(s[0]) then ['\\', s[0]] else [s[0]]) + EscapeRegex(s[1..])
  }

  /** A pattern that only ever matches literal text: every special character
      stands behind a backslash and every backslash escapes a special one. */
  predicate IsLiteralPattern(r: string)
    decreases |r|
  {
    if |r| == 0 then true
    else if r[0] == '\\' then |r| >= 2 && IsRegexSpecial(r[1]) && IsLiteralPattern(r[2..])
    else !IsRegexSpecial(r[0]) && IsLiteralPattern(r[1..])
  }

  /** The text a literal pattern matches. */
  function Unescape(r: string): string
    requires IsLiteralPattern(r)
    decreases |r|
  {
    if |r| == 0 then []
    else if r[0] == '\\' then [r[1]] + Unescape(r[2..])
    else [r[0]] + Unescape(r[1..])
  }

  /** Escaping yields a literal pattern that matches exactly the input. */
  lemma {:induction false} EscapeIsLiteral(s: string)
    ensures IsLiteralPattern(EscapeRegex(s))
    ensures Unescape(EscapeRegex(s)) == s
  {
    if |s| > 0 {
      EscapeIsLiteral(s[1..]);
      var r := EscapeRegex(s);
      if IsRegexSpecial(s[0]) {
        assert r[2..] == EscapeRegex(s[1..]);
      } else {
        assert r[1..] == EscapeRegex(s[1..]);
      }
    }
  }

  /** Every literal pattern is the escape of the text it matches, so escaping
      is a bijection between texts and literal patterns. */
  lemma {:induction false} LiteralIsEscape(r: string)
    requires IsLiteralPattern(r)
    ensures EscapeRegex(Unescape(r)) == r
    decreases |r|
  {
    if |r| > 0 {
      var u := Unescape(r);
      if r[0] == '\\' {
        LiteralIsEscape(r[2..]);
        assert u[1..] == Unescape(r[2..]);
        assert r == r[..2] + r[2..];
      } else {
        LiteralIsEscape(r[1..]);
        assert u[1..] == Unescape(r[1..]);
        assert r == [r[0]] + r[1..];
      }
    }
  }

  /** `new RegExp(escapeRegex(q), 'i').test(text)`: the query occurs in the
      text, ignoring case. */
  predicate CiContains(text: string, query: string)
  {
    Contains(ToLower(text), ToLower(query))
  }

  /** `new RegExp('^' + escapeRegex(q) + '$', 'i').test(text)`. */
  predicate CiEquals(text: string, query: string)
  {
    ToLower(text) == ToLower(query)
  }

  /** An exact (anchored) match is also a substring match. */
  lemma CiEqualsContains(text: string, query: string)
    requires CiEquals(text, query)
    ensures CiContains(text, query)
  {
    var t := ToLower(text);
    assert OccursAt(t, ToLower(query), 0) by { assert t[0..|t|] == t; }
  }
}
