/**
 * The handful of JavaScript string operations the route guard and the pages
 * rely on: `startsWith`, `endsWith`, the first-occurrence `replace` of a
 * string pattern, ASCII case folding as the `i` flag of a non-Unicode regular
 * expression performs it, and the truthiness of an optional string.
 */
module JsStrings {
  import opened Options

  /** `s.startsWith(p)`. */
  predicate StartsWith(s: string, p: string) {
    |p| <= |s| && s[..|p|] == p
  }

  /** `s.endsWith(p)`. */
  predicate EndsWith(s: string, p: string) {
    |p| <= |s| && s[|s| - |p|..] == p
  }

  /** `pat` occurs in `s` starting at index `i`. */
  predicate OccursAt(s: string, pat: string, i: int) {
    0 <= i && i + |pat| <= |s| && s[i..i + |pat|] == pat
  }

  /** `s.includes(pat)`. */
  predicate Contains(s: string, pat: string) {
    exists i :: 0 <= i <= |s| && OccursAt(s, pat, i)
  }

  /** Shifting the search window by one character. */
  lemma OccursAtTail(s: string, pat: string, j: int)
    requires |s| > 0 && 0 <= j
    ensures OccursAt(s, pat, j + 1) <==> OccursAt(s[1..], pat, j)
  {
  }

  /**
   * `s.indexOf(pat)`: the first position at which `pat` occurs, or `None`
   * where JavaScript returns -1. Positions count Dafny characters (Unicode
   * scalar values), where JavaScript counts UTF-16 code units; the two agree
   * on strings without characters outside the Basic Multilingual Plane.
   */
  function IndexOf(s: string, pat: string): (r: Option<nat>)
    ensures r.Some? ==> OccursAt(s, pat, r.value)
    ensures r.Some? ==> forall j :: 0 <= j < r.value ==> !OccursAt(s, pat, j)
    ensures r.None? ==> forall j :: !OccursAt(s, pat, j)
    decreases |s|
  {
    if |s| < |pat| then None
    else if s[..|pat|] == pat then Some(0)
    else
      var rest := IndexOf(s[1..], pat);
      assert !OccursAt(s, pat, 0);
      assert forall j :: 0 < j ==> (OccursAt(s, pat, j) <==> OccursAt(s[1..], pat, j - 1)) by {
        forall j | 0 < j ensures OccursAt(s, pat, j) <==> OccursAt(s[1..], pat, j - 1) {
          OccursAtTail(s, pat, j - 1);
        }
      }
      match rest
      case None => None
      case Some(k) => Some(k + 1)
  }

  /**
   * `s.replace(pat, rep)` with a string (not a regular expression) as the
   * pattern and a replacement holding no `$`: only the FIRST occurrence is
   * replaced, wherever it stands, and `s` comes back unchanged when `pat`
   * does not occur. (JavaScript expands `$&`, `$$`, `` $` `` and `$'` in a
   * replacement; the one replacement used here is `""`.)
   */
  function ReplaceFirst(s: string, pat: string, rep: string): (r: string)
    ensures !Contains(s, pat) ==> r == s
    ensures StartsWith(s, pat) ==> r == rep + s[|pat|..]
    ensures Contains(s, pat) ==> |r| == |s| - |pat| + |rep|
  {
    match IndexOf(s, pat)
    case None => s
    case Some(i) =>
      assert StartsWith(s, pat) ==> OccursAt(s, pat, 0);
      s[..i] + rep + s[i + |pat|..]
  }

  /** A `$`-free replacement is spliced in at the first occurrence, whatever precedes it. */
  lemma ReplaceFirstAt(s: string, pat: string, rep: string, i: nat)
    requires OccursAt(s, pat, i)
    requires forall j :: 0 <= j < i ==> !OccursAt(s, pat, j)
    ensures ReplaceFirst(s, pat, rep) == s[..i] + rep + s[i + |pat|..]
  {
  }

  /** A position whose character differs from the pattern's first one is not an occurrence. */
  lemma FirstCharMismatch(s: string, pat: string, j: int)
    requires 0 <= j < |s| && |pat| > 0 && s[j] != pat[0]
    ensures !OccursAt(s, pat, j)
  {
  }

  /**
   * One step of the `i` flag against an ASCII-only pattern such as the
   * extension list: only `A`–`Z` can fold to a pattern letter, so they fold
   * to lower case and nothing else changes.
   */
  function LowerAscii(c: char): (d: char)
    ensures 'A' <= c <= 'Z' ==> 'a' <= d <= 'z' && d as int - c as int == 32
    ensures !('A' <= c <= 'Z') ==> d == c
  {
    if 'A' <= c <= 'Z' then (c as int + 32) as char else c
  }

  /**
   * The comparison a regular expression with the `i` flag makes between a
   * character and an ASCII pattern character: equal, or the same ASCII letter
   * in the other case. (Non-ASCII letters also match each other across case,
   * but never an ASCII one, so they do not arise against an ASCII pattern.)
   */
  predicate SameIgnoringAsciiCase(c: char, d: char) {
    c == d
    || ('A' <= c <= 'Z' && d as int == c as int + 32)
    || ('A' <= d <= 'Z' && c as int == d as int + 32)
  }

  /** Two strings of the same length that agree position by position up to ASCII case. */
  predicate EqualIgnoringAsciiCase(s: string, u: string) {
    |s| == |u| && forall i :: 0 <= i < |s| ==> SameIgnoringAsciiCase(s[i], u[i])
  }

  /**
   * `LowerAscii` applied to every character: the one string that agrees with
   * `s` up to ASCII case and holds no upper-case ASCII letter.
   */
  function LowerAsciiString(s: string): (t: string)
    ensures |t| == |s|
    ensures forall i :: 0 <= i < |s| ==> SameIgnoringAsciiCase(t[i], s[i])
    ensures forall i :: 0 <= i < |t| ==> !('A' <= t[i] <= 'Z')
  {
    seq(|s|, i requires 0 <= i < |s| => LowerAscii(s[i]))
  }

  /** Case folding works character by character, so it distributes over concatenation. */
  lemma LowerAsciiConcat(a: string, b: string)
    ensures LowerAsciiString(a + b) == LowerAsciiString(a) + LowerAsciiString(b)
  {
  }

  /** Folding is what makes a case-insensitive comparison an equality. */
  lemma FoldsAgreeIffEqualIgnoringCase(s: string, u: string)
    ensures LowerAsciiString(s) == LowerAsciiString(u) <==> EqualIgnoringAsciiCase(s, u)
  {
    var ls, lu := LowerAsciiString(s), LowerAsciiString(u);
    if ls == lu {
      forall i | 0 <= i < |s|
        ensures SameIgnoringAsciiCase(s[i], u[i])
      {
        assert ls[i] == lu[i];
      }
    }
    if EqualIgnoringAsciiCase(s, u) {
      forall i | 0 <= i < |s|
        ensures ls[i] == lu[i]
      {
        assert SameIgnoringAsciiCase(s[i], u[i]);
      }
    }
  }

  /** Folding a string that holds no upper-case ASCII letter leaves it as it is. */
  lemma LowerAsciiFixesLowerCase(s: string)
    requires forall i :: 0 <= i < |s| ==> !('A' <= s[i] <= 'Z')
    ensures LowerAsciiString(s) == s
  {
  }

  /** JavaScript truthiness of a `string | null | undefined`: present and not empty. */
  predicate IsTruthy(o: Option<string>) {
    o.Some? && o.value != ""
  }

  /**
   * `a || b` on two optional strings: the left one whenever it is truthy,
   * otherwise the right one, so truthy exactly when either is.
   */
  function OrElse(a: Option<string>, b: Option<string>): (r: Option<string>)
    ensures IsTruthy(r) <==> IsTruthy(a) || IsTruthy(b)
    ensures IsTruthy(a) ==> r == a
    ensures !IsTruthy(a) ==> r == b
  {
    if IsTruthy(a) then a else b
  }

  /** `x || ''`: the string itself when it is truthy, the empty string otherwise. */
  function OrEmpty(o: Option<string>): (r: string)
    ensures r == "" <==> !IsTruthy(o)
    ensures IsTruthy(o) ==> r == o.value
  {
    if IsTruthy(o) then o.value else ""
  }
}
