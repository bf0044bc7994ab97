/** The JavaScript string operations the handlers rely on: `indexOf`,
    `split` with a string separator, `join`, the decimal rendering of a
    number inside a template literal, and `replace` with a string pattern. */
module Strings {
  import opened Wrappers

  /** `p` occurs in `s` starting at index `i`. */
  predicate OccursAt(s: string, p: string, i: nat) {
    i + |p| <= |s| && s[i..i + |p|] == p
  }

  /** `s.indexOf(p, from)`: the first index at or after `from` where `p` occurs. */
  function IndexOf(s: string, p: string, from: nat): (r: Option<nat>)
    ensures r.Some? ==> from <= r.value && OccursAt(s, p, r.value)
    ensures r.Some? ==> forall k :: from <= k < r.value ==> !OccursAt(s, p, k)
    ensures r.None? ==> forall k :: from <= k ==> !OccursAt(s, p, k)
    decreases |s| - from
  {
    if from + |p| > |s| then None
    else if OccursAt(s, p, from) then Some(from)
    else IndexOf(s, p, from + 1)
  }

  /** `s.split(sep)` for a non-empty separator: the pieces between the
      non-overlapping occurrences of `sep`, found from left to right. */
  function Split(s: string, sep: string): (parts: seq<string>)
    requires sep != ""
    ensures |parts| >= 1
    decreases |s|
  {
    match IndexOf(s, sep, 0)
    case None => [s]
    case Some(i) => [s[..i]] + Split(s[i + |sep|..], sep)
  }

  /** `parts.join(sep)`. */
  function Join(parts: seq<string>, sep: string): string
  {
    if |parts| == 0 then ""
    else if |parts| == 1 then parts[0]
    else parts[0] + sep + Join(parts[1..], sep)
  }

  /** How many times `c` occurs in `s`. */
  function Count(s: string, c: char): nat {
    multiset(s)[c]
  }

  /** A one-character search finds the first occurrence of that character. */
  lemma FirstCharIndex(s: string, c: char, i: nat)
    requires i < |s| && s[i] == c && c !in s[..i]
    ensures IndexOf(s, [c], 0) == Some(i)
  {
    assert s[i..i + 1] == [c];
    assert OccursAt(s, [c], i);
    var r := IndexOf(s, [c], 0);
    assert r.Some?;
    var j := r.value;
    assert s[j..j + 1] == [c];
    assert s[j] == s[j..j + 1][0];
  }

  /** A character that does not occur is not found. */
  lemma {:induction false} MissingCharIndex(s: string, c: char, from: nat)
    requires c !in s
    ensures IndexOf(s, [c], from) == None
    decreases |s| - from
  {
    if from + 1 <= |s| {
      assert s[from..from + 1][0] == s[from];
      MissingCharIndex(s, c, from + 1);
    }
  }

  /** Splitting at a single character yields one piece more than there are
      occurrences of it; this is `content.split('\n').length`. */
  lemma {:induction false} SplitCharLength(s: string, c: char)
    ensures |Split(s, [c])| == Count(s, c) + 1
    decreases |s|
  {
    match IndexOf(s, [c], 0)
    case None =>
      if c in s {
        var k :| 0 <= k < |s| && s[k] == c;
        assert s[k..k + 1] == [c];
        assert OccursAt(s, [c], k);
      }
    case Some(i) =>
      assert s[i..i + 1] == [c];
      assert s[i] == c;
      if c in s[..i] {
        var k :| 0 <= k < i && s[..i][k] == c;
        assert s[k..k + 1] == [c];
        assert OccursAt(s, [c], k);
      }
      assert s == s[..i] + [s[i]] + s[i + 1..];
      assert multiset(s) == multiset(s[..i]) + multiset([s[i]]) + multiset(s[i + 1..]);
      SplitCharLength(s[i + 1..], c);
  }

  /** Joining pieces that do not contain `c` with `c` and splitting again at
      `c` gives the pieces back. */
  lemma {:induction false} SplitJoin(parts: seq<string>, c: char)
    requires |parts| >= 1
    requires forall k :: 0 <= k < |parts| ==> c !in parts[k]
    ensures Split(Join(parts, [c]), [c]) == parts
  {
    if |parts| == 1 {
      MissingCharIndex(parts[0], c, 0);
    } else {
      var s := Join(parts, [c]);
      var i := |parts[0]|;
      assert s == parts[0] + [c] + Join(parts[1..], [c]);
      assert s[..i] == parts[0];
      FirstCharIndex(s, c, i);
      assert s[i + 1..] == Join(parts[1..], [c]);
      SplitJoin(parts[1..], c);
    }
  }

  /** The character of a decimal digit. */
  function DigitChar(d: nat): (ch: char)
    requires d < 10
    ensures '0' <= ch <= '9'
  {
    (48 + d) as char
  }

  predicate IsDigits(s: string) {
    forall k :: 0 <= k < |s| ==> '0' <= s[k] <= '9'
  }

  /** A number as a template literal renders it: decimal, no leading zeros. */
  function DecimalString(n: nat): (r: string)
    ensures |r| >= 1 && IsDigits(r)
    decreases n
  {
    if n < 10 then [DigitChar(n)] else DecimalString(n / 10) + [DigitChar(n % 10)]
  }

  /** The number a string of decimal digits denotes. */
  function DecimalValue(s: string): nat
    requires IsDigits(s)
    decreases |s|
  {
    if |s| == 0 then 0
    else DecimalValue(s[..|s| - 1]) * 10 + (s[|s| - 1] as int - 48)
  }

  /** The rendering is faithful: reading the digits back gives the number. */
  lemma {:induction false} DecimalRoundTrip(n: nat)
    ensures DecimalValue(DecimalString(n)) == n
    decreases n
  {
    var r := DecimalString(n);
    if n >= 10 {
      assert r[..|r| - 1] == DecimalString(n / 10);
      DecimalRoundTrip(n / 10);
    }
  }

  /** Replace the first occurrence of `pattern` by `replacement`, literally. */
  function ReplaceFirst(s: string, pattern: string, replacement: string): (r: string)
    ensures IndexOf(s, pattern, 0).None? ==> r == s
    ensures IndexOf(s, pattern, 0).Some? ==>
      var i := IndexOf(s, pattern, 0).value;
      && |r| == |s| - |pattern| + |replacement|
      && r[..i] == s[..i]
      && r[i..i + |replacement|] == replacement
      && r[i + |replacement|..] == s[i + |pattern|..]
  {
    match IndexOf(s, pattern, 0)
    case None => s
    case Some(i) => s[..i] + replacement + s[i + |pattern|..]
  }

  /** The replacement text `String.prototype.replace` actually inserts when
      the pattern is a string (so there are no capture groups): `$$`, `$&`,
      `` $` `` and `$'` are expanded, every other character is copied. */
  function Substitution(replacement: string, matched: string, before: string, after: string): string
    decreases |replacement|
  {
    if |replacement| >= 2 && replacement[0] == '$' && replacement[1] in "$&`'" then
      (if replacement[1] == '$' then "$"
       else if replacement[1] == '&' then matched
       else if replacement[1] == '`' then before
       else after)
      + Substitution(replacement[2..], matched, before, after)
    else if |replacement| == 0 then ""
    else [replacement[0]] + Substitution(replacement[1..], matched, before, after)
  }

  /** `s.replace(pattern, replacement)` as JavaScript evaluates it. */
  function JsReplaceFirst(s: string, pattern: string, replacement: string): (r: string)
    ensures IndexOf(s, pattern, 0).None? ==> r == s
    ensures IndexOf(s, pattern, 0).Some? ==>
      var i := IndexOf(s, pattern, 0).value;
      var rest := |s| - (i + |pattern|);
      && |r| >= i + rest
      && r[..i] == s[..i]
      && r[|r| - rest..] == s[i + |pattern|..]
  {
    match IndexOf(s, pattern, 0)
    case None => s
    case Some(i) => s[..i] + Substitution(replacement, pattern, s[..i], s[i + |pattern|..]) + s[i + |pattern|..]
  }

  /** Text without a `$` is inserted unchanged. */
  lemma {:induction false} SubstitutionWithoutDollar(replacement: string, matched: string, before: string, after: string)
    requires '$' !in replacement
    ensures Substitution(replacement, matched, before, after) == replacement
    decreases |replacement|
  {
    if |replacement| > 0 {
      assert replacement[0] != '$';
      assert replacement == [replacement[0]] + replacement[1..];
      SubstitutionWithoutDollar(replacement[1..], matched, before, after);
    }
  }

  /** So JavaScript's `replace` and the literal replacement agree on text
      without a `$`. */
  lemma JsReplaceAgreesWithoutDollar(s: string, pattern: string, replacement: string)
    requires '$' !in replacement
    ensures JsReplaceFirst(s, pattern, replacement) == ReplaceFirst(s, pattern, replacement)
  {
    match IndexOf(s, pattern, 0)
    case None =>
    case Some(i) =>
      SubstitutionWithoutDollar(replacement, pattern, s[..i], s[i + |pattern|..]);
  }

  /** The four patterns a string-pattern `replace` expands: `$$` inserts a
      `$`, `$&` the matched text, `` $` `` the text before the match and `$'`
      the text after it. */
  lemma JsReplacePatterns(s: string, pattern: string)
    requires IndexOf(s, pattern, 0).Some?
    ensures var i := IndexOf(s, pattern, 0).value;
      && JsReplaceFirst(s, pattern, "$$") == s[..i] + "$" + s[i + |pattern|..]
      && JsReplaceFirst(s, pattern, "$&") == s[..i] + pattern + s[i + |pattern|..]
      && JsReplaceFirst(s, pattern, "$`") == s[..i] + s[..i] + s[i + |pattern|..]
      && JsReplaceFirst(s, pattern, "$'") == s[..i] + s[i + |pattern|..] + s[i + |pattern|..]
  {
    var i := IndexOf(s, pattern, 0).value;
    var before, after := s[..i], s[i + |pattern|..];
    assert "$$"[2..] == "" && "$&"[2..] == "" && "$`"[2..] == "" && "$'"[2..] == "";
    assert Substitution("$$", pattern, before, after) == "$";
    assert Substitution("$&", pattern, before, after) == pattern;
    assert Substitution("$`", pattern, before, after) == before;
    assert Substitution("$'", pattern, before, after) == after;
  }

  /** ... and disagree on `$&`: wherever the pattern occurs, `replace` with
      `$&` puts the pattern back, leaving the text as it was, while the
      literal replacement inserts the two characters `$&`. */
  lemma JsReplaceExpandsMatch(s: string, pattern: string)
    requires IndexOf(s, pattern, 0).Some? && pattern != "$&"
    ensures JsReplaceFirst(s, pattern, "$&") == s
    ensures ReplaceFirst(s, pattern, "$&") != s
  {
    var i := IndexOf(s, pattern, 0).value;
    JsReplacePatterns(s, pattern);
    assert s == s[..i] + s[i..i + |pattern|] + s[i + |pattern|..];
    var r := ReplaceFirst(s, pattern, "$&");
    assert |r| == |s| ==> r[i..i + 2] == "$&" && s[i..i + 2] == pattern;
  }

  /** The instance of the proposal template: an extract of `$&` puts the
      placeholder back instead of the text `$&`. */
  lemma JsReplaceKeepsPlaceholder()
    ensures JsReplaceFirst("{{key_info}}", "{{key_info}}", "$&") == "{{key_info}}"
    ensures ReplaceFirst("{{key_info}}", "{{key_info}}", "$&") == "$&"
  {
    assert OccursAt("{{key_info}}", "{{key_info}}", 0);
    JsReplaceExpandsMatch("{{key_info}}", "{{key_info}}");
    assert "{{key_info}}"[..0] == "" && "{{key_info}}"[12..] == "";
  }
}
