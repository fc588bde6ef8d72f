/**
 * The nine regular expressions of the executor (main.go:199-207),
 * written out as predicates over ASCII lines, with the submatches the
 * executor reads. Matching follows RE2's leftmost-first rule: the
 * pattern is anchored at the start, `?`, `+` and `*` are greedy, and
 * a submatch is the one a backtracking search would find first.
 */
module Patterns {
  import opened Wrappers
  import opened Ascii

  /** `kw` (case-insensitively) followed by one `\s` character. */
  predicate KeywordThenSpace(s: string, kw: string) {
    |s| > |kw| && FoldPrefix(s, kw) && IsRegexSpace(s[|kw|])
  }

  /** `^:.*` */
  predicate IsShellLine(s: string) {
    |s| > 0 && s[0] == ':'
  }

  /** `^(?i)select\s` */
  predicate IsSelectLine(s: string) {
    KeywordThenSpace(s, "select")
  }

  /** `^(?i)(insert|update|delete|truncate)\s` */
  predicate IsDmlLine(s: string) {
    KeywordThenSpace(s, "insert") || KeywordThenSpace(s, "update") ||
    KeywordThenSpace(s, "delete") || KeywordThenSpace(s, "truncate")
  }

  /** `^(?i)create\s` */
  predicate IsCreateLine(s: string) {
    KeywordThenSpace(s, "create")
  }

  /** `^(?i)drop\s` */
  predicate IsDropLine(s: string) {
    KeywordThenSpace(s, "drop")
  }

  /** `\s+(.+)` matches at the start of `t`: a non-empty run of spaces, then a character other than newline. */
  predicate SpacesThenText(t: string) {
    exists k :: 1 <= k < |t| && t[k] != '\n' && forall i :: 0 <= i < k ==> IsRegexSpace(t[i])
  }

  /** `^(?i)desc(ribe)?\s+(.+)` */
  predicate IsDescribeLine(s: string) {
    FoldPrefix(s, "desc") &&
    (SpacesThenText(s[4..]) || (FoldPrefix(s[4..], "ribe") && SpacesThenText(s[8..])))
  }

  /** Submatch 1 of the describe pattern: the optional `(ribe)` group, as typed, or empty when it did not take part. */
  function DescribeGroup(s: string): (g: string)
    requires IsDescribeLine(s)
    ensures g == [] || (|s| >= 8 && g == s[4..8] && FoldPrefix(g, "ribe"))
    ensures g == [] <==> !(FoldPrefix(s[4..], "ribe") && SpacesThenText(s[8..]))
  {
    if FoldPrefix(s[4..], "ribe") && SpacesThenText(s[8..]) then s[4..8] else []
  }

  /** `^(?i)execute\s+(.+)` */
  predicate IsExecuteLine(s: string) {
    FoldPrefix(s, "execute") && SpacesThenText(s[7..])
  }

  /** Length of the leading run of `\s` characters. */
  function SpaceRun(t: string): (n: nat)
    ensures n <= |t|
    ensures forall i :: 0 <= i < n ==> IsRegexSpace(t[i])
    ensures n < |t| ==> !IsRegexSpace(t[n])
  {
    if t != [] && IsRegexSpace(t[0]) then 1 + SpaceRun(t[1..]) else 0
  }

  /**
   * Where the greedy `\s+` hands over to `(.+)`: the longest run of
   * spaces, given back one character at a time until the next
   * character is not a newline.
   */
  function GreedyStart(t: string, n: nat): (r: Option<nat>)
    requires n <= SpaceRun(t)
    ensures r.Some? ==> 1 <= r.value <= n && r.value < |t| && t[r.value] != '\n'
    ensures r.Some? ==> forall k :: r.value < k <= n && k < |t| ==> t[k] == '\n'
    ensures r.None? ==> forall k :: 1 <= k <= n && k < |t| ==> t[k] == '\n'
    decreases n
  {
    if n == 0 then None
    else if n < |t| && t[n] != '\n' then Some(n)
    else GreedyStart(t, n - 1)
  }

  /** The greedy search finds a split exactly when `\s+(.+)` matches. */
  lemma GreedyStartIff(t: string)
    ensures GreedyStart(t, SpaceRun(t)).Some? <==> SpacesThenText(t)
  {
    var n := SpaceRun(t);
    var r := GreedyStart(t, n);
    if r.Some? {
      assert forall i :: 0 <= i < r.value ==> IsRegexSpace(t[i]);
    }
    if SpacesThenText(t) {
      var k :| 1 <= k < |t| && t[k] != '\n' && forall i :: 0 <= i < k ==> IsRegexSpace(t[i]);
      assert k <= n;
    }
  }

  /** Submatch 1 of the execute pattern: from the greedy split up to the next newline (`.` stops there). */
  function ExecuteGroup(s: string): (g: string)
    requires IsExecuteLine(s)
    ensures |g| >= 1 && forall i :: 0 <= i < |g| ==> g[i] != '\n'
    ensures var t := s[7..]; var n := SpaceRun(t);
            n < |t| ==> g == t[n..][..FirstNewline(t[n..])]
    ensures SpaceRun(s[7..]) == |s| - 7 ==> forall i :: 0 <= i < |g| ==> IsRegexSpace(g[i])
  {
    var t := s[7..];
    GreedyStartIff(t);
    var k := GreedyStart(t, SpaceRun(t)).value;
    t[k..][..FirstNewline(t[k..])]
  }

  /** `^(?i)\\(.)`: a backslash and one more character other than newline, which is submatch 1. */
  predicate IsMetaLine(s: string) {
    |s| >= 2 && s[0] == '\\' && s[1] != '\n'
  }

  /** `^(?i)exit\s*$`: `exit` with nothing but `\s` characters after it. */
  predicate IsExitLine(s: string) {
    FoldPrefix(s, "exit") && forall i :: 4 <= i < |s| ==> IsRegexSpace(s[i])
  }

  function Count(b: bool): nat {
    if b then 1 else 0
  }

  /** How many of the nine patterns match `s`. */
  function MatchCount(s: string): nat {
    Count(IsShellLine(s)) + Count(IsSelectLine(s)) + Count(IsDescribeLine(s)) +
    Count(IsDmlLine(s)) + Count(IsCreateLine(s)) + Count(IsDropLine(s)) +
    Count(IsExecuteLine(s)) + Count(IsMetaLine(s)) + Count(IsExitLine(s))
  }

  /** The folded first three characters of a line, padded with NUL. */
  function Head(s: string): (char, char, char) {
    (if |s| > 0 then Lower(s[0]) else '\0',
     if |s| > 1 then Lower(s[1]) else '\0',
     if |s| > 2 then Lower(s[2]) else '\0')
  }

  lemma HeadOfKeyword(s: string, kw: string)
    requires FoldPrefix(s, kw) && |kw| >= 3
    ensures Head(s) == (kw[0], kw[1], kw[2])
  {
    FoldAt(s, kw, 0);
    FoldAt(s, kw, 1);
    FoldAt(s, kw, 2);
  }

  /**
   * No line matches two of the patterns, so the order in which the
   * executor tries them never decides the outcome.
   */
  lemma PatternsDisjoint(s: string)
    ensures MatchCount(s) <= 1
  {
    if |s| > 0 {
      var h := Head(s);
      if IsSelectLine(s) { HeadOfKeyword(s, "select"); }
      if IsDescribeLine(s) { HeadOfKeyword(s, "desc"); }
      if KeywordThenSpace(s, "insert") { HeadOfKeyword(s, "insert"); }
      if KeywordThenSpace(s, "update") { HeadOfKeyword(s, "update"); }
      if KeywordThenSpace(s, "delete") { HeadOfKeyword(s, "delete"); }
      if KeywordThenSpace(s, "truncate") { HeadOfKeyword(s, "truncate"); }
      if IsCreateLine(s) { HeadOfKeyword(s, "create"); }
      if IsDropLine(s) { HeadOfKeyword(s, "drop"); }
      if IsExecuteLine(s) { HeadOfKeyword(s, "execute"); }
      if IsExitLine(s) { HeadOfKeyword(s, "exit"); }
      if IsShellLine(s) { assert h.0 == ':'; }
      if IsMetaLine(s) { assert h.0 == '\\'; }
    }
  }

  /** The seven statement keywords that the executor hands to the server. */
  const StatementKeywords: set<string> := {"select", "insert", "update", "delete", "truncate", "create", "drop"}

  /** A statement keyword with no white space right after it matches none of the nine patterns. */
  lemma KeywordAloneMatchesNothing(s: string, kw: string)
    requires kw in StatementKeywords
    requires FoldPrefix(s, kw) && (|s| == |kw| || !IsRegexSpace(s[|kw|]))
    ensures MatchCount(s) == 0
  {
    HeadOfKeyword(s, kw);
    assert !KeywordThenSpace(s, kw);
    var h := Head(s);
    assert h.0 != ':' && h.0 != '\\';
    if IsDescribeLine(s) { HeadOfKeyword(s, "desc"); }
    if IsExecuteLine(s) { HeadOfKeyword(s, "execute"); }
    if IsExitLine(s) { HeadOfKeyword(s, "exit"); }
    if KeywordThenSpace(s, "select") { HeadOfKeyword(s, "select"); }
    if KeywordThenSpace(s, "insert") { HeadOfKeyword(s, "insert"); }
    if KeywordThenSpace(s, "update") { HeadOfKeyword(s, "update"); }
    if KeywordThenSpace(s, "delete") { HeadOfKeyword(s, "delete"); }
    if KeywordThenSpace(s, "truncate") { HeadOfKeyword(s, "truncate"); }
    if KeywordThenSpace(s, "create") { HeadOfKeyword(s, "create"); }
    if KeywordThenSpace(s, "drop") { HeadOfKeyword(s, "drop"); }
  }

  // ------------------------------------------------------- case of letters

  /** `t` is `s` with the case of some ASCII letters changed. */
  predicate CaseVariant(s: string, t: string) {
    |s| == |t| && forall i :: 0 <= i < |s| ==> Lower(s[i]) == Lower(t[i])
  }

  /** Changing the case of a letter never makes or unmakes white space or one of the pattern's punctuation characters. */
  lemma LowerKeepsClass(c: char, d: char)
    requires Lower(c) == Lower(d)
    ensures IsRegexSpace(c) <==> IsRegexSpace(d)
    ensures (c == '\n' <==> d == '\n') && (c == ':' <==> d == ':') && (c == '\\' <==> d == '\\')
  {
  }

  lemma CaseVariantSuffix(s: string, t: string, k: nat)
    requires CaseVariant(s, t) && k <= |s|
    ensures CaseVariant(s[k..], t[k..])
  {
    assert forall i :: 0 <= i < |s| - k ==> s[k..][i] == s[k + i] && t[k..][i] == t[k + i];
  }

  lemma CaseVariantFold(s: string, t: string, kw: string)
    requires CaseVariant(s, t)
    ensures FoldPrefix(s, kw) <==> FoldPrefix(t, kw)
  {
  }

  lemma CaseVariantKeyword(s: string, t: string, kw: string)
    requires CaseVariant(s, t)
    ensures KeywordThenSpace(s, kw) <==> KeywordThenSpace(t, kw)
  {
    CaseVariantFold(s, t, kw);
    if |kw| < |s| {
      LowerKeepsClass(s[|kw|], t[|kw|]);
    }
  }

  lemma CaseVariantSpaces(s: string, t: string)
    requires CaseVariant(s, t) && SpacesThenText(s)
    ensures SpacesThenText(t)
  {
    var k :| 1 <= k < |s| && s[k] != '\n' && forall i :: 0 <= i < k ==> IsRegexSpace(s[i]);
    LowerKeepsClass(s[k], t[k]);
    forall i | 0 <= i < k ensures IsRegexSpace(t[i]) {
      LowerKeepsClass(s[i], t[i]);
    }
  }

  lemma CaseVariantSpacesAt(s: string, t: string, k: nat)
    requires CaseVariant(s, t) && k <= |s|
    ensures SpacesThenText(s[k..]) <==> SpacesThenText(t[k..])
  {
    CaseVariantSuffix(s, t, k);
    CaseVariantSuffix(t, s, k);
    if SpacesThenText(s[k..]) { CaseVariantSpaces(s[k..], t[k..]); }
    if SpacesThenText(t[k..]) { CaseVariantSpaces(t[k..], s[k..]); }
  }

  /** Every pattern matches a line exactly when it matches the same line with other letter case. */
  lemma PatternsIgnoreCase(s: string, t: string)
    requires CaseVariant(s, t)
    ensures IsShellLine(s) <==> IsShellLine(t)
    ensures IsSelectLine(s) <==> IsSelectLine(t)
    ensures IsDescribeLine(s) <==> IsDescribeLine(t)
    ensures IsDmlLine(s) <==> IsDmlLine(t)
    ensures IsCreateLine(s) <==> IsCreateLine(t)
    ensures IsDropLine(s) <==> IsDropLine(t)
    ensures IsExecuteLine(s) <==> IsExecuteLine(t)
    ensures IsMetaLine(s) <==> IsMetaLine(t)
    ensures IsExitLine(s) <==> IsExitLine(t)
  {
    if |s| > 0 { LowerKeepsClass(s[0], t[0]); }
    if |s| > 1 { LowerKeepsClass(s[1], t[1]); }
    CaseVariantKeyword(s, t, "select");
    CaseVariantKeyword(s, t, "insert");
    CaseVariantKeyword(s, t, "update");
    CaseVariantKeyword(s, t, "delete");
    CaseVariantKeyword(s, t, "truncate");
    CaseVariantKeyword(s, t, "create");
    CaseVariantKeyword(s, t, "drop");
    CaseVariantFold(s, t, "desc");
    CaseVariantFold(s, t, "execute");
    CaseVariantFold(s, t, "exit");
    if |s| >= 4 {
      CaseVariantSuffix(s, t, 4);
      CaseVariantFold(s[4..], t[4..], "ribe");
      CaseVariantSpacesAt(s, t, 4);
    }
    if |s| >= 7 { CaseVariantSpacesAt(s, t, 7); }
    if |s| >= 8 { CaseVariantSpacesAt(s, t, 8); }
    forall i | 4 <= i < |s| ensures IsRegexSpace(s[i]) <==> IsRegexSpace(t[i]) {
      LowerKeepsClass(s[i], t[i]);
    }
  }
}
