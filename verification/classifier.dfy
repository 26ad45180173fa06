/** The compiler-output classifier of internal/builder/builder.go
    (parseBuildOutput and BuildResult). */
module Classifier {
  import opened Basics
  import opened Text

  /** Success is false exactly when some error line was found. */
  datatype BuildResult = BuildResult(success: bool, errors: seq<string>, warnings: seq<string>)

  /** The alternatives of the error pattern, in lower case. */
  const ErrorTokens: seq<string> := ["error", "fatal error", "undefined symbol", "cannot find", "not found"]

  /** The alternatives of the warning pattern, in lower case. */
  const WarningTokens: seq<string> := ["warning", "note", "suggestion"]

  /** An unanchored `(?i)(t1|t2|...).*` pattern matches line. */
  predicate ContainsAny(line: string, toks: seq<string>)
  {
    |toks| > 0 && (ContainsFolded(line, toks[0]) || ContainsAny(line, toks[1..]))
  }

  datatype LineKind = ErrorLine | WarningLine | Ignored

  /** The error pattern is tried first, so a line with both kinds of token is an error. */
  function KindOf(line: string): LineKind
  {
    if ContainsAny(line, ErrorTokens) then ErrorLine
    else if ContainsAny(line, WarningTokens) then WarningLine
    else Ignored
  }

  lemma TokensAreLetterBounded()
    ensures forall k :: 0 <= k < |ErrorTokens| ==> LetterBounded(ErrorTokens[k])
    ensures forall k :: 0 <= k < |WarningTokens| ==> LetterBounded(WarningTokens[k])
  {
  }

  lemma TrimKeepsAny(line: string, toks: seq<string>)
    requires forall k :: 0 <= k < |toks| ==> LetterBounded(toks[k])
    ensures ContainsAny(TrimSpace(line), toks) <==> ContainsAny(line, toks)
  {
    if toks != [] {
      TrimKeepsOccurrences(line, toks[0]);
      TrimKeepsAny(line, toks[1..]);
    }
  }

  /** The stored, trimmed text of a line is classified like the line itself. */
  lemma TrimKeepsKind(line: string)
    ensures KindOf(TrimSpace(line)) == KindOf(line)
  {
    TokensAreLetterBounded();
    TrimKeepsAny(line, ErrorTokens);
    TrimKeepsAny(line, WarningTokens);
  }

  // The scanning loop is written for any line test `kindOf` and any `entry`
  // text stored for a line; parseBuildOutput uses it with KindOf and
  // TrimSpace.  The loop's own properties depend on neither.

  /** What one line adds to the error entries: its entry text when it is an error line. */
  function ErrorPart(kindOf: string -> LineKind, entry: string -> string, line: string): (part: seq<string>)
    ensures |part| <= 1
  {
    if kindOf(line) == ErrorLine then [entry(line)] else []
  }

  /** What one line adds to the warning entries: its entry text when it is a warning line. */
  function WarningPart(kindOf: string -> LineKind, entry: string -> string, line: string): (part: seq<string>)
    ensures |part| <= 1
    ensures |part| + |ErrorPart(kindOf, entry, line)| <= 1
  {
    if kindOf(line) == WarningLine then [entry(line)] else []
  }

  /** The scanning loop of parseBuildOutput over lines already split: the
      first line's entries come before those of the remaining lines. */
  function Classify(kindOf: string -> LineKind, entry: string -> string, lines: seq<string>): (r: BuildResult)
  {
    if lines == [] then BuildResult(true, [], [])
    else
      var rest := Classify(kindOf, entry, lines[1..]);
      BuildResult(
        ErrorPart(kindOf, entry, lines[0]) == [] && rest.success,
        ErrorPart(kindOf, entry, lines[0]) + rest.errors,
        WarningPart(kindOf, entry, lines[0]) + rest.warnings)
  }

  lemma {:induction false} ClassifyShape(kindOf: string -> LineKind, entry: string -> string, lines: seq<string>)
    ensures Classify(kindOf, entry, lines).success <==> Classify(kindOf, entry, lines).errors == []
    ensures |Classify(kindOf, entry, lines).errors| + |Classify(kindOf, entry, lines).warnings| <= |lines|
  {
    if lines != [] {
      ClassifyShape(kindOf, entry, lines[1..]);
    }
  }

  /** parseBuildOutput: classify the lines of stdout + "\n" + stderr. */
  function ParseBuildOutput(stdout: string, stderr: string): (r: BuildResult)
    ensures r.success <==> r.errors == []
  {
    ClassifyShape(KindOf, TrimSpace, ScanLines(stdout + "\n" + stderr));
    Classify(KindOf, TrimSpace, ScanLines(stdout + "\n" + stderr))
  }

  /** Number of lines of the given kind. */
  function CountKind(kindOf: string -> LineKind, lines: seq<string>, kind: LineKind): nat
  {
    if lines == [] then 0
    else (if kindOf(lines[0]) == kind then 1 else 0) + CountKind(kindOf, lines[1..], kind)
  }

  /** Every line is of exactly one kind. */
  lemma {:induction false} KindsPartitionLines(kindOf: string -> LineKind, lines: seq<string>)
    ensures CountKind(kindOf, lines, ErrorLine) + CountKind(kindOf, lines, WarningLine) + CountKind(kindOf, lines, Ignored) == |lines|
  {
    if lines != [] {
      KindsPartitionLines(kindOf, lines[1..]);
    }
  }

  /** Each error line contributes one error entry and each warning line one
      warning entry; ignored lines contribute nothing. */
  lemma {:induction false} ClassifyCounts(kindOf: string -> LineKind, entry: string -> string, lines: seq<string>)
    ensures |Classify(kindOf, entry, lines).errors| == CountKind(kindOf, lines, ErrorLine)
    ensures |Classify(kindOf, entry, lines).warnings| == CountKind(kindOf, lines, WarningLine)
  {
    if lines != [] {
      ClassifyCounts(kindOf, entry, lines[1..]);
    }
  }

  /** Classifying two runs of lines one after the other concatenates the error entries. */
  lemma {:induction false} ErrorsConcat(kindOf: string -> LineKind, entry: string -> string, a: seq<string>, b: seq<string>)
    ensures Classify(kindOf, entry, a + b).errors == Classify(kindOf, entry, a).errors + Classify(kindOf, entry, b).errors
  {
    if a == [] {
      assert a + b == b;
    } else {
      ErrorsConcat(kindOf, entry, a[1..], b);
      assert (a + b)[0] == a[0];
      assert (a + b)[1..] == a[1..] + b;
      AppendAssoc(ErrorPart(kindOf, entry, a[0]), Classify(kindOf, entry, a[1..]).errors, Classify(kindOf, entry, b).errors);
    }
  }

  /** Classifying two runs of lines one after the other concatenates the warning entries. */
  lemma {:induction false} WarningsConcat(kindOf: string -> LineKind, entry: string -> string, a: seq<string>, b: seq<string>)
    ensures Classify(kindOf, entry, a + b).warnings == Classify(kindOf, entry, a).warnings + Classify(kindOf, entry, b).warnings
  {
    if a == [] {
      assert a + b == b;
    } else {
      WarningsConcat(kindOf, entry, a[1..], b);
      assert (a + b)[0] == a[0];
      assert (a + b)[1..] == a[1..] + b;
      AppendAssoc(WarningPart(kindOf, entry, a[0]), Classify(kindOf, entry, a[1..]).warnings, Classify(kindOf, entry, b).warnings);
    }
  }

  /** The error entries are exactly the trimmed error lines. */
  lemma {:induction false} ErrorEntries(kindOf: string -> LineKind, entry: string -> string, lines: seq<string>, s: string)
    ensures s in Classify(kindOf, entry, lines).errors <==>
      exists i :: 0 <= i < |lines| && kindOf(lines[i]) == ErrorLine && s == entry(lines[i])
  {
    if lines != [] {
      var rest := lines[1..];
      ErrorEntries(kindOf, entry, rest, s);
      assert forall i :: 0 <= i < |rest| ==> rest[i] == lines[i + 1];
      if i :| 0 <= i < |lines| && kindOf(lines[i]) == ErrorLine && s == entry(lines[i]) {
        if i > 0 {
          assert rest[i - 1] == lines[i];
        }
      }
    }
  }

  /** The warning entries are exactly the trimmed warning lines. */
  lemma {:induction false} WarningEntries(kindOf: string -> LineKind, entry: string -> string, lines: seq<string>, s: string)
    ensures s in Classify(kindOf, entry, lines).warnings <==>
      exists i :: 0 <= i < |lines| && kindOf(lines[i]) == WarningLine && s == entry(lines[i])
  {
    if lines != [] {
      var rest := lines[1..];
      WarningEntries(kindOf, entry, rest, s);
      assert forall i :: 0 <= i < |rest| ==> rest[i] == lines[i + 1];
      if i :| 0 <= i < |lines| && kindOf(lines[i]) == WarningLine && s == entry(lines[i]) {
        if i > 0 {
          assert rest[i - 1] == lines[i];
        }
      }
    }
  }

  /** Every stored entry is itself a line of its kind, so a stored error
      never also lands among the warnings. */
  lemma EntriesKeepTheirKind(lines: seq<string>)
    ensures forall e :: e in Classify(KindOf, TrimSpace, lines).errors ==> KindOf(e) == ErrorLine
    ensures forall w :: w in Classify(KindOf, TrimSpace, lines).warnings ==> KindOf(w) == WarningLine
    ensures forall e :: e in Classify(KindOf, TrimSpace, lines).errors ==> e !in Classify(KindOf, TrimSpace, lines).warnings
  {
    forall e | e in Classify(KindOf, TrimSpace, lines).errors
      ensures KindOf(e) == ErrorLine
    {
      ErrorEntries(KindOf, TrimSpace, lines, e);
      var i :| 0 <= i < |lines| && KindOf(lines[i]) == ErrorLine && e == TrimSpace(lines[i]);
      TrimKeepsKind(lines[i]);
    }
    forall w | w in Classify(KindOf, TrimSpace, lines).warnings
      ensures KindOf(w) == WarningLine
    {
      WarningEntries(KindOf, TrimSpace, lines, w);
      var i :| 0 <= i < |lines| && KindOf(lines[i]) == WarningLine && w == TrimSpace(lines[i]);
      TrimKeepsKind(lines[i]);
    }
  }

  /** Output without any token yields no entries and a successful result. */
  lemma NoTokensNoEntries(kindOf: string -> LineKind, entry: string -> string, lines: seq<string>)
    requires forall i :: 0 <= i < |lines| ==> kindOf(lines[i]) == Ignored
    ensures Classify(kindOf, entry, lines) == BuildResult(true, [], [])
  {
    var r := Classify(kindOf, entry, lines);
    if r.errors != [] {
      ErrorEntries(kindOf, entry, lines, r.errors[0]);
    }
    if r.warnings != [] {
      WarningEntries(kindOf, entry, lines, r.warnings[0]);
    }
  }

  /** Entries from standard output precede entries from standard error in each sequence. */
  lemma StdoutBeforeStderr(stdout: string, stderr: string)
    ensures ParseBuildOutput(stdout, stderr).errors ==
      Classify(KindOf, TrimSpace, DropCRs(Segments(stdout))).errors + Classify(KindOf, TrimSpace, ScanLines(stderr)).errors
    ensures ParseBuildOutput(stdout, stderr).warnings ==
      Classify(KindOf, TrimSpace, DropCRs(Segments(stdout))).warnings + Classify(KindOf, TrimSpace, ScanLines(stderr)).warnings
  {
    ScanLinesConcat(stdout, stderr);
    ErrorsConcat(KindOf, TrimSpace, DropCRs(Segments(stdout)), ScanLines(stderr));
    WarningsConcat(KindOf, TrimSpace, DropCRs(Segments(stdout)), ScanLines(stderr));
  }

  /** "fatal error" adds nothing to the error pattern: every such line contains "error". */
  lemma FatalErrorIsRedundant(line: string)
    ensures ContainsAny(line, ErrorTokens) <==>
      ContainsAny(line, ["error", "undefined symbol", "cannot find", "not found"])
  {
    ContainsFoldedIff(line, "fatal error");
    ContainsFoldedIff(line, "error");
    if ContainsFolded(line, "fatal error") {
      var i: nat :| MatchesAt(line, "fatal error", i);
      assert forall j :: 0 <= j < 5 ==> "fatal error"[6 + j] == "error"[j];
      assert MatchesAt(line, "error", i + 6);
    }
  }

  /** Compiler output that is a single line on standard output, with nothing
      on standard error, is classified as that line alone. */
  lemma SingleLineOutput(line: string)
    requires '\n' !in line
    ensures ParseBuildOutput(line, "") == Classify(KindOf, TrimSpace, [DropCR(line)])
  {
    ScanLinesConcat(line, "");
    SegmentsOfLine(line);
    assert ScanLines("") == [];
  }

  /** Matching ignores case: an upper-case "FATAL ERROR" line is an error line. */
  lemma ShoutedFatalErrorIsError()
    ensures KindOf("FATAL ERROR: syntax") == ErrorLine
  {
    assert MatchesAt("FATAL ERROR: syntax", "error", 6);
    ContainsFoldedIff("FATAL ERROR: syntax", "error");
  }

  /** A line matches one of the alternatives exactly when it contains one of
      the tokens. */
  lemma {:induction false} ContainsAnyIff(line: string, toks: seq<string>)
    ensures ContainsAny(line, toks) <==> exists k :: 0 <= k < |toks| && ContainsFolded(line, toks[k])
  {
    if toks != [] {
      ContainsAnyIff(line, toks[1..]);
      if k :| 0 < k < |toks| && ContainsFolded(line, toks[k]) {
        assert toks[1..][k - 1] == toks[k];
      }
    }
  }

  /** c is none of o, f, c in either case: each error token has one of these. */
  predicate LacksErrorLetter(c: char)
  {
    c != 'o' && c != 'O' && c != 'f' && c != 'F' && c != 'c' && c != 'C'
  }

  /** A token with an o, f or c does not occur in a line free of those letters. */
  lemma MissingLetterNoMatch(line: string, tok: string, o: nat)
    requires o < |tok| && (tok[o] == 'o' || tok[o] == 'f' || tok[o] == 'c')
    requires forall i :: 0 <= i < |line| ==> LacksErrorLetter(line[i])
    ensures !ContainsFolded(line, tok)
  {
    ContainsFoldedIff(line, tok);
  }

  /** A line without the letters o, f and c in either case carries no error
      token, so it is a warning line as soon as it carries a warning token. */
  lemma NoErrorLetters(line: string)
    requires forall i :: 0 <= i < |line| ==> LacksErrorLetter(line[i])
    ensures !ContainsAny(line, ErrorTokens)
    ensures KindOf(line) == WarningLine <==> ContainsAny(line, WarningTokens)
  {
    forall k | 0 <= k < |ErrorTokens|
      ensures !ContainsFolded(line, ErrorTokens[k])
    {
      ErrorTokenAbsent(line, k);
    }
    ContainsAnyIff(line, ErrorTokens);
  }

  /** The k-th error token has an o, f or c, so it is absent from such a line. */
  lemma ErrorTokenAbsent(line: string, k: nat)
    requires k < |ErrorTokens|
    requires forall i :: 0 <= i < |line| ==> LacksErrorLetter(line[i])
    ensures !ContainsFolded(line, ErrorTokens[k])
  {
    if k == 0 {
      MissingLetterNoMatch(line, ErrorTokens[0], 3);
    } else if k == 1 {
      MissingLetterNoMatch(line, ErrorTokens[1], 0);
    } else if k == 2 {
      MissingLetterNoMatch(line, ErrorTokens[2], 4);
    } else if k == 3 {
      MissingLetterNoMatch(line, ErrorTokens[3], 0);
    } else {
      MissingLetterNoMatch(line, ErrorTokens[4], 1);
    }
  }

  const UnusedVariableLine: string := "Warning: unused variable"

  /** A compiler warning with no error token is a warning line. */
  lemma UnusedVariableIsWarning()
    ensures KindOf(UnusedVariableLine) == WarningLine
  {
    var line := UnusedVariableLine;
    UnusedVariableLacksErrorLetters();
    NoErrorLetters(line);
    UnusedVariableStartsWithWarning();
    ContainsFoldedIff(line, "warning");
    assert ContainsFolded(line, WarningTokens[0]);
  }

  /** The warning line has no o, f or c in either case. */
  lemma UnusedVariableLacksErrorLetters()
    ensures forall i :: 0 <= i < |UnusedVariableLine| ==> LacksErrorLetter(UnusedVariableLine[i])
  {
  }

  /** The warning line begins with the warning token. */
  lemma UnusedVariableStartsWithWarning()
    ensures MatchesAt(UnusedVariableLine, "warning", 0)
  {
  }

  /** A line with both kinds of token is reported once, as an error. */
  lemma ErrorMentioningWarningIsOneError()
    ensures var r := Classify(KindOf, TrimSpace, ["error: see warning above"]);
      !r.success && |r.errors| == 1 && r.warnings == []
  {
    var line := "error: see warning above";
    var lines: seq<string> := [line];
    assert MatchesAt(line, "error", 0);
    ContainsFoldedIff(line, "error");
    assert KindOf(line) == ErrorLine;
    assert lines[1..] == [];
  }

  /** A newline ending the only line of standard output changes nothing:
      the empty line it leaves before the stderr separator is ignored. */
  lemma TerminatedLineOutput(line: string)
    requires '\n' !in line
    ensures ParseBuildOutput(line + "\n", "") == ParseBuildOutput(line, "")
  {
    SingleLineOutput(line);
    assert (line + "\n") + "\n" + "" == line + "\n" + "\n";
    TerminatedLineScan(line);
    TrailingEmptyLineIgnored(DropCR(line));
  }

  /** An empty last line adds nothing to the classification. */
  lemma TrailingEmptyLineIgnored(x: string)
    ensures Classify(KindOf, TrimSpace, [x, ""]) == Classify(KindOf, TrimSpace, [x])
  {
    var lines := [x, ""];
    EmptyLineIsIgnored();
    assert lines[1..] == [""];
    assert [""][1..] == [];
    assert [x][1..] == [];
    assert Classify(KindOf, TrimSpace, lines[1..]) == BuildResult(true, [], []);
  }

  /** Output whose only line, newline-terminated or not, has an error token
      yields one error, no warnings and failure. */
  lemma OneErrorLineOutput(line: string, stdout: string)
    requires '\n' !in line && KindOf(DropCR(line)) == ErrorLine
    requires stdout == line || stdout == line + "\n"
    ensures var r := ParseBuildOutput(stdout, "");
      !r.success && |r.errors| == 1 && r.warnings == []
  {
    SingleLineOutput(line);
    TerminatedLineOutput(line);
  }

  /** The one-line report "1 Error found: undefined symbol "x"" yields one
      error, no warnings and failure. */
  lemma UndefinedSymbolReport()
    ensures var r := ParseBuildOutput(UndefinedSymbolLine, "");
      !r.success && |r.errors| == 1 && r.warnings == []
  {
    var line := UndefinedSymbolLine;
    assert line[|line| - 1] == '"';
    assert DropCR(line) == line;
    assert MatchesAt(line, "error", 2);
    ContainsFoldedIff(line, "error");
    assert ContainsFolded(line, ErrorTokens[0]);
    assert KindOf(line) == ErrorLine;
    assert '\n' !in "1 Error found: undefined symbol \"x\"";
    OneErrorLineOutput(line, line);
  }

  const UndefinedSymbolLine: string := "1 Error found: undefined symbol \"x\""

  /** No non-empty token occurs in the empty line. */
  lemma {:induction false} NothingInEmptyLine(toks: seq<string>)
    requires forall k :: 0 <= k < |toks| ==> |toks[k]| > 0
    ensures !ContainsAny("", toks)
  {
    if toks != [] {
      NothingInEmptyLine(toks[1..]);
    }
  }

  lemma EmptyLineIsIgnored()
    ensures KindOf("") == Ignored
  {
    TokensAreLetterBounded();
    NothingInEmptyLine(ErrorTokens);
    NothingInEmptyLine(WarningTokens);
  }

  /** Empty compiler output yields no entries and success. */
  lemma EmptyOutputSucceeds()
    ensures ParseBuildOutput("", "") == BuildResult(true, [], [])
  {
    SingleLineOutput("");
    var lines: seq<string> := [""];
    assert DropCR("") == "";
    EmptyLineIsIgnored();
    assert lines[1..] == [];
    assert ErrorPart(KindOf, TrimSpace, lines[0]) == [];
    assert WarningPart(KindOf, TrimSpace, lines[0]) == [];
  }
}
