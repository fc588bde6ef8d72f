/**
 * First-match-wins classification of one input line into the single
 * action the executor runs for it (main.go:212-293).
 */
module Classifier {
  import opened Ascii
  import opened Patterns

  datatype DdlKind = Create | Drop

  datatype Action =
    | ShellCommand(argv: seq<string>)        // `:` line, remainder split into fields
    | Select(statement: string)              // the whole line is the query
    | Describe(group: string)                // submatch 1 of the describe pattern
    | Mutate(statement: string)              // insert / update / delete / truncate
    | Ddl(statement: string, kind: DdlKind)  // create / drop
    | ExecuteFile(path: string)              // submatch 1 of the execute pattern
    | Meta(command: char)                    // the character after the backslash
    | Exit
    | Unrecognized

  /** The executor's cascade of pattern tests, in its order. */
  function Classify(s: string): Action {
    if IsShellLine(s) then ShellCommand(Fields(s[1..]))
    else if IsSelectLine(s) then Select(s)
    else if IsDescribeLine(s) then Describe(DescribeGroup(s))
    else if IsDmlLine(s) then Mutate(s)
    else if IsCreateLine(s) || IsDropLine(s) then Ddl(s, if IsCreateLine(s) then Create else Drop)
    else if IsExecuteLine(s) then ExecuteFile(ExecuteGroup(s))
    else if IsMetaLine(s) then Meta(s[1])
    else if IsExitLine(s) then Exit
    else Unrecognized
  }

  /**
   * Each action is chosen exactly when its own pattern matches: since
   * the patterns are disjoint, no earlier branch ever shadows a later one.
   */
  lemma ClassifyByPattern(s: string)
    ensures Classify(s).ShellCommand? <==> IsShellLine(s)
    ensures Classify(s).Select? <==> IsSelectLine(s)
    ensures Classify(s).Describe? <==> IsDescribeLine(s)
    ensures Classify(s).Mutate? <==> IsDmlLine(s)
    ensures Classify(s) == Ddl(s, Create) <==> IsCreateLine(s)
    ensures Classify(s) == Ddl(s, Drop) <==> IsDropLine(s)
    ensures Classify(s).ExecuteFile? <==> IsExecuteLine(s)
    ensures Classify(s).Meta? <==> IsMetaLine(s)
    ensures Classify(s).Exit? <==> IsExitLine(s)
    ensures Classify(s).Unrecognized? <==> MatchCount(s) == 0
  {
    PatternsDisjoint(s);
  }

  /**
   * A statement keyword, in any letter case, needs a white-space
   * character right after it: a keyword at the end of the line, or
   * glued to the next character, is not recognised at all.
   */
  lemma KeywordNeedsSpace(s: string, kw: string)
    requires kw in StatementKeywords
    requires FoldPrefix(s, kw) && (|s| == |kw| || !IsRegexSpace(s[|kw|]))
    ensures Classify(s) == Unrecognized
  {
    KeywordAloneMatchesNothing(s, kw);
    ClassifyByPattern(s);
  }

  /**
   * The `(?i)` flag: changing the case of letters in a line never
   * changes which action it gets, nor whether the describe group is set.
   */
  lemma ClassifyIgnoresCase(s: string, t: string)
    requires CaseVariant(s, t)
    ensures Classify(s).ShellCommand? <==> Classify(t).ShellCommand?
    ensures Classify(s).Select? <==> Classify(t).Select?
    ensures Classify(s).Describe? <==> Classify(t).Describe?
    ensures Classify(s).Mutate? <==> Classify(t).Mutate?
    ensures Classify(s).Ddl? <==> Classify(t).Ddl?
    ensures Classify(s).Ddl? ==> Classify(s).kind == Classify(t).kind
    ensures Classify(s).ExecuteFile? <==> Classify(t).ExecuteFile?
    ensures Classify(s).Meta? <==> Classify(t).Meta?
    ensures Classify(s).Exit? <==> Classify(t).Exit?
    ensures Classify(s).Unrecognized? <==> Classify(t).Unrecognized?
    ensures Classify(s).Describe? ==> (Classify(s).group == [] <==> Classify(t).group == [])
  {
    PatternsIgnoreCase(s, t);
    ClassifyByPattern(s);
    ClassifyByPattern(t);
    if |s| >= 4 {
      CaseVariantSuffix(s, t, 4);
      CaseVariantFold(s[4..], t[4..], "ribe");
    }
    if |s| >= 8 { CaseVariantSpacesAt(s, t, 8); }
  }

  /** The empty line matches no pattern. */
  lemma EmptyLineUnrecognized()
    ensures Classify("") == Unrecognized
  {
  }

  /** The describe argument is never the table name: it is `ribe` as typed, or empty for `desc`. */
  lemma DescribeArgumentIsRibeGroup(s: string)
    requires Classify(s).Describe?
    ensures Classify(s).group == [] || (|s| >= 8 && Classify(s).group == s[4..8] && FoldPrefix(s[4..8], "ribe"))
    ensures FoldPrefix(s, "describe") && SpacesThenText(s[8..]) ==> Classify(s).group == s[4..8]
    ensures !FoldPrefix(s[4..], "ribe") ==> Classify(s).group == []
  {
    ClassifyByPattern(s);
    if FoldPrefix(s, "describe") {
      assert FoldPrefix(s[4..], "ribe");
    }
  }

  /** The argv of a shell line holds the non-space text after the colon, as non-empty space-free words. */
  lemma ShellArgv(s: string)
    requires IsShellLine(s)
    ensures Classify(s) == ShellCommand(Fields(s[1..]))
    ensures Concat(Classify(s).argv) == NonSpace(s[1..])
    ensures Classify(s).argv == [] <==> forall i :: 1 <= i < |s| ==> IsFieldSpace(s[i])
  {
    FieldsKeepNonSpace(s[1..]);
    FieldsEmptyIff(s[1..]);
    assert forall i :: 1 <= i < |s| ==> s[i] == s[1..][i - 1];
  }

  // Each pattern on its own: the action a line that matches it is given.

  lemma SelectClassified(s: string)
    requires IsSelectLine(s)
    ensures Classify(s) == Select(s)
  {
    ClassifyByPattern(s);
  }

  lemma DescribeClassified(s: string)
    requires IsDescribeLine(s)
    ensures Classify(s) == Describe(DescribeGroup(s))
  {
    ClassifyByPattern(s);
  }

  lemma DmlClassified(s: string)
    requires IsDmlLine(s)
    ensures Classify(s) == Mutate(s)
  {
    ClassifyByPattern(s);
  }

  lemma DdlClassified(s: string)
    requires IsCreateLine(s) || IsDropLine(s)
    ensures Classify(s) == Ddl(s, if IsCreateLine(s) then Create else Drop)
    ensures IsCreateLine(s) ==> !IsDropLine(s)
  {
    ClassifyByPattern(s);
  }

  lemma ExecuteClassified(s: string)
    requires IsExecuteLine(s)
    ensures Classify(s) == ExecuteFile(ExecuteGroup(s))
  {
    ClassifyByPattern(s);
  }

  lemma MetaClassified(s: string)
    requires IsMetaLine(s)
    ensures Classify(s) == Meta(s[1])
  {
    ClassifyByPattern(s);
  }

  lemma ExitClassified(s: string)
    requires IsExitLine(s)
    ensures Classify(s) == Exit
  {
    ClassifyByPattern(s);
  }

  // Worked examples.

  /** `:ls -la` runs `ls` with the one argument `-la`. */
  lemma ShellExample(s: string)
    requires s == ":ls -la"
    ensures Classify(s) == ShellCommand(["ls", "-la"])
  {
    assert s[1..] == "ls -la";
    FieldsExample(s[1..]);
  }

  /**
   * After `execute` and a run of `n` spaces, the path is the rest of
   * the line when that holds no newline and does not start with white space.
   */
  lemma ExecutePath(s: string, n: nat)
    requires FoldPrefix(s, "execute") && n >= 1 && 7 + n < |s|
    requires forall i :: 7 <= i < 7 + n ==> IsRegexSpace(s[i])
    requires !IsRegexSpace(s[7 + n])
    requires forall i :: 7 + n <= i < |s| ==> s[i] != '\n'
    ensures Classify(s) == ExecuteFile(s[7 + n..])
  {
    var t := s[7..];
    assert forall i :: 0 <= i < |t| ==> t[i] == s[7 + i];
    assert SpacesThenText(t) by { assert t[n] != '\n'; }
    assert SpaceRun(t) == n;
    var u := t[n..];
    assert u == s[7 + n..];
    assert FirstNewline(u) == |u|;
    assert u[..|u|] == u;
    ExecuteClassified(s);
  }

  /** With two spaces after `execute`, the greedy `\s+` takes both and the path is `f.sql`. */
  lemma ExecuteExample(s: string)
    requires s == "execute  f.sql"
    ensures Classify(s) == ExecuteFile("f.sql")
  {
    assert s[9..] == "f.sql";
    ExecutePath(s, 2);
  }
}
