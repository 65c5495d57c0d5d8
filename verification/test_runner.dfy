/** Checking generated tests: the syntax gate, the static checks, the
    heuristic coverage estimate, and one pytest run in a scratch directory
    whose printed summary is scanned for the pass, fail and skip counts.
    The compiler and the pytest process enter as parameters. */
module TestRunner {
  import opened Wrappers
  import opened Text
  import opened Schemas

  // ---------------------------------------------------------------------------
  // Syntax
  // ---------------------------------------------------------------------------

  /** What compiling a test file gives: success, a syntax error with its
      message and line (which may be unknown), or another compile error. */
  datatype Compiled = Compiles | SyntaxErr(msg: string, lineno: Option<int>) | CompileFailed(text: string)

  /** The compiler, as seen from here. */
  type Compiler = string -> Compiled

  function LineText(lineno: Option<int>): string {
    match lineno
    case None => "None"
    case Some(n) => IntToString(n)
  }

  /** The validity flag and the error list of one file. */
  function ValidateTestSyntax(c: Compiled): (r: (bool, seq<string>))
    ensures r.0 <==> c.Compiles?
    ensures r.0 <==> r.1 == []
    ensures |r.1| <= 1
    ensures c.SyntaxErr? ==> StartsWith(r.1[0], "SyntaxError: ")
    ensures c.CompileFailed? ==> StartsWith(r.1[0], "Compilation error: ")
  {
    match c
    case Compiles => (true, [])
    case SyntaxErr(msg, line) => (false, ["SyntaxError: " + msg + " (line " + LineText(line) + ")"])
    case CompileFailed(text) => (false, ["Compilation error: " + text])
  }

  predicate AllCompile(tfs: seq<TestFile>, compile: Compiler) {
    forall i :: 0 <= i < |tfs| ==> compile(tfs[i].content).Compiles?
  }

  /** The errors of one file, each prefixed with the file's path. */
  function Prefixed(path: string, errors: seq<string>): (r: seq<string>)
    ensures |r| == |errors|
    ensures forall i :: 0 <= i < |r| ==> r[i] == path + ": " + errors[i]
  {
    seq(|errors|, i requires 0 <= i < |errors| => path + ": " + errors[i])
  }

  /** Every file's errors, in file order. */
  function SyntaxErrors(tfs: seq<TestFile>, compile: Compiler): (r: seq<string>)
    ensures |r| <= |tfs|
    decreases |tfs|
  {
    if |tfs| == 0 then []
    else
      var prefix := tfs[..|tfs| - 1];
      var last := tfs[|tfs| - 1];
      SyntaxErrors(prefix, compile) + Prefixed(last.path, ValidateTestSyntax(compile(last.content)).1)
  }

  /** There are no errors exactly when every file compiles. */
  lemma {:induction false} SyntaxErrorsEmpty(tfs: seq<TestFile>, compile: Compiler)
    ensures SyntaxErrors(tfs, compile) == [] <==> AllCompile(tfs, compile)
    decreases |tfs|
  {
    if |tfs| > 0 {
      var prefix, last := tfs[..|tfs| - 1], tfs[|tfs| - 1];
      SyntaxErrorsEmpty(prefix, compile);
      var p := Prefixed(last.path, ValidateTestSyntax(compile(last.content)).1);
      assert SyntaxErrors(tfs, compile) == SyntaxErrors(prefix, compile) + p;
      assert p == [] <==> compile(last.content).Compiles?;
      AllCompileSnoc(tfs, compile);
    }
  }

  /** All files compile when all but the last do and the last does. */
  lemma AllCompileSnoc(tfs: seq<TestFile>, compile: Compiler)
    requires |tfs| > 0
    ensures AllCompile(tfs, compile)
        <==> AllCompile(tfs[..|tfs| - 1], compile) && compile(tfs[|tfs| - 1].content).Compiles?
  {
    var prefix := tfs[..|tfs| - 1];
    assert forall i :: 0 <= i < |prefix| ==> prefix[i] == tfs[i];
  }

  lemma SyntaxErrorsStep(tfs: seq<TestFile>, i: nat, compile: Compiler)
    requires i < |tfs|
    ensures var checked := ValidateTestSyntax(compile(tfs[i].content));
      && (checked.0 ==> SyntaxErrors(tfs[..i + 1], compile) == SyntaxErrors(tfs[..i], compile))
      && (!checked.0 ==>
            && SyntaxErrors(tfs[..i + 1], compile)
               == SyntaxErrors(tfs[..i], compile) + Prefixed(tfs[i].path, checked.1)
            && Prefixed(tfs[i].path, checked.1) != [])
  {
    assert tfs[..i + 1][..i] == tfs[..i];
    var checked := ValidateTestSyntax(compile(tfs[i].content));
    if checked.0 {
      assert SyntaxErrors(tfs[..i], compile) + [] == SyntaxErrors(tfs[..i], compile);
    }
  }

  /** The syntax check: every file is compiled and its errors collected;
      any error marks the whole set invalid. */
  method CheckSyntax(tfs: seq<TestFile>, compile: Compiler) returns (valid: bool, errors: seq<string>)
    ensures valid <==> AllCompile(tfs, compile)
    ensures errors == SyntaxErrors(tfs, compile)
  {
    valid, errors := CollectSyntaxErrors(tfs, compile);
    SyntaxErrorsEmpty(tfs, compile);
  }

  /** The syntax loop itself. */
  method CollectSyntaxErrors(tfs: seq<TestFile>, compile: Compiler) returns (valid: bool, errors: seq<string>)
    ensures errors == SyntaxErrors(tfs, compile)
    ensures valid <==> errors == []
  {
    valid := true;
    errors := [];
    var i := 0;
    while i < |tfs|
      invariant 0 <= i <= |tfs|
      invariant errors == SyntaxErrors(tfs[..i], compile)
      invariant valid <==> errors == []
    {
      var checked := ValidateTestSyntax(compile(tfs[i].content));
      SyntaxErrorsStep(tfs, i, compile);
      if !checked.0 {
        valid := false;
        errors := errors + Prefixed(tfs[i].path, checked.1);
      }
      i := i + 1;
    }
    assert tfs[..|tfs|] == tfs;
  }

  // ---------------------------------------------------------------------------
  // Static checks
  // ---------------------------------------------------------------------------

  const PrintWarning := StaticIssue("warning", "Found print() statements - consider removing debug prints")
  const ImportWarning := StaticIssue("warning", "No pytest import found - tests may not run correctly")
  const ChecksPerformed: seq<string> := ["syntax_check", "import_check", "anti_pattern_check"]

  /** A `print(` call, and no "# debug" marker in any case. */
  predicate HasDebugPrint(content: string) {
    Contains(content, "print(") && !Contains(Lower(content), "# debug")
  }

  /** Neither `import pytest` nor `from pytest` appears. */
  predicate LacksPytestImport(content: string) {
    !Contains(content, "import pytest") && !Contains(content, "from pytest")
  }

  /** The static report of one file: the print warning, then the import
      warning, each when its condition holds, and the three check names. */
  function RunStaticAnalysis(content: string): (r: StaticReport)
    ensures r.checksPerformed == ChecksPerformed
    ensures PrintWarning in r.issues <==> HasDebugPrint(content)
    ensures ImportWarning in r.issues <==> LacksPytestImport(content)
    ensures forall i :: 0 <= i < |r.issues| ==> r.issues[i] in [PrintWarning, ImportWarning]
    ensures |r.issues| == 2 ==> r.issues == [PrintWarning, ImportWarning]
  {
    var issues := (if HasDebugPrint(content) then [PrintWarning] else [])
      + (if LacksPytestImport(content) then [ImportWarning] else []);
    StaticReport(issues, ChecksPerformed)
  }

  /** The paths of the test files. */
  function Paths(tfs: seq<TestFile>): set<string> {
    set i | 0 <= i < |tfs| :: tfs[i].path
  }

  /** The paths of all files are those of all but the last, and the last. */
  lemma PathsSnoc(tfs: seq<TestFile>)
    requires |tfs| > 0
    ensures Paths(tfs) == Paths(tfs[..|tfs| - 1]) + {tfs[|tfs| - 1].path}
  {
    var prefix := tfs[..|tfs| - 1];
    forall x | x in Paths(tfs)
      ensures x in Paths(prefix) + {tfs[|tfs| - 1].path}
    {
      var i :| 0 <= i < |tfs| && tfs[i].path == x;
      if i < |prefix| {
        assert prefix[i] == tfs[i];
      }
    }
    forall x | x in Paths(prefix)
      ensures x in Paths(tfs)
    {
      var i :| 0 <= i < |prefix| && prefix[i].path == x;
      assert tfs[i] == prefix[i];
    }
  }

  /** The static results keyed by path; a later file with the same path
      replaces an earlier one. */
  function StaticResults(tfs: seq<TestFile>): (r: map<string, StaticReport>)
    ensures r.Keys == Paths(tfs)
    decreases |tfs|
  {
    if |tfs| == 0 then map[]
    else
      var prefix := tfs[..|tfs| - 1];
      var last := tfs[|tfs| - 1];
      PathsSnoc(tfs);
      StaticResults(prefix)[last.path := RunStaticAnalysis(last.content)]
  }

  /** The static-analysis loop. */
  method StaticPass(tfs: seq<TestFile>) returns (m: map<string, StaticReport>)
    ensures m == StaticResults(tfs)
  {
    m := map[];
    var i := 0;
    while i < |tfs|
      invariant 0 <= i <= |tfs|
      invariant m == StaticResults(tfs[..i])
    {
      m := m[tfs[i].path := RunStaticAnalysis(tfs[i].content)];
      assert tfs[..i + 1][..i] == tfs[..i];
      i := i + 1;
    }
    assert tfs[..|tfs|] == tfs;
  }

  /** A path's entry is the report of the last file with that path. */
  lemma {:induction false} StaticResultsLastWins(tfs: seq<TestFile>, i: nat)
    requires i < |tfs|
    requires forall j :: i < j < |tfs| ==> tfs[j].path != tfs[i].path
    ensures StaticResults(tfs)[tfs[i].path] == RunStaticAnalysis(tfs[i].content)
    decreases |tfs|
  {
    if i < |tfs| - 1 {
      var prefix := tfs[..|tfs| - 1];
      assert prefix[i] == tfs[i];
      StaticResultsLastWins(prefix, i);
    }
  }

  // ---------------------------------------------------------------------------
  // Coverage estimate
  // ---------------------------------------------------------------------------

  const NoSourcesNote := "No source files provided"
  const GenerateNote := "Generate tests for the source files"
  const LowRatioNote := "Add more test cases - current ratio is less than 1 test per source file"
  const CoverageCommandNote := "Run actual coverage analysis with: pytest --cov=app --cov-report=term-missing"
  const EdgeCaseNote := "Consider adding edge case tests for better coverage"

  /** The number of test cases over all files. */
  function TotalTests(tfs: seq<TestFile>): nat
    decreases |tfs|
  {
    if |tfs| == 0 then 0 else TotalTests(tfs[..|tfs| - 1]) + |tfs[|tfs| - 1].testCases|
  }

  /** The source references of a test case; a missing list is empty. */
  function Refs(tc: TestCase): seq<string> {
    tc.sourceRefs.GetOr([])
  }

  /** Some test case of some file names `source` among its references. */
  predicate HasTest(source: string, tfs: seq<TestFile>) {
    exists i, j :: 0 <= i < |tfs| && 0 <= j < |tfs[i].testCases| && source in Refs(tfs[i].testCases[j])
  }

  /** The sources no test case refers to, in source order. */
  function Uncovered(sources: seq<string>, tfs: seq<TestFile>): (r: seq<string>)
    ensures forall x :: x in r <==> x in sources && !HasTest(x, tfs)
    ensures |r| <= |sources|
    decreases |sources|
  {
    if |sources| == 0 then []
    else
      var prefix := sources[..|sources| - 1];
      var last := sources[|sources| - 1];
      assert forall x :: x in sources <==> x in prefix || x == last by {
        assert sources == prefix + [last];
      }
      Uncovered(prefix, tfs) + (if HasTest(last, tfs) then [] else [last])
  }

  /** The range named for `tests` test cases over `sources` source files,
      by the ratio of the two compared with 3, 2 and 1. */
  function Bucket(tests: nat, sources: nat): (r: string)
    requires sources > 0
    ensures r == "75-90%" <==> tests >= 3 * sources
    ensures r == "60-75%" <==> 2 * sources <= tests < 3 * sources
    ensures r == "40-60%" <==> sources <= tests < 2 * sources
    ensures r == "20-40%" <==> tests < sources
  {
    if tests >= 3 * sources then "75-90%"
    else if tests >= 2 * sources then "60-75%"
    else if tests >= sources then "40-60%"
    else "20-40%"
  }

  /** The ranges in increasing order. */
  function BucketRank(b: string): nat {
    if b == "20-40%" then 0 else if b == "40-60%" then 1 else if b == "60-75%" then 2 else 3
  }

  /** More test cases never give a lower range. */
  lemma BucketMonotone(t1: nat, t2: nat, sources: nat)
    requires sources > 0 && t1 <= t2
    ensures BucketRank(Bucket(t1, sources)) <= BucketRank(Bucket(t2, sources))
  {
  }

  /** The note naming at most the first three uncovered sources. */
  function UncoveredNote(uncovered: seq<string>): string {
    "Add tests for uncovered source files: " + Join(uncovered[..if |uncovered| < 3 then |uncovered| else 3], ", ")
  }

  /** The recommendations, in order: the low-ratio note, the uncovered
      note, and the two standing notes. */
  function Recommendations(tests: nat, sources: nat, uncovered: seq<string>): (r: seq<string>)
    ensures |r| >= 2 && r[|r| - 2..] == [CoverageCommandNote, EdgeCaseNote]
    ensures |r| == 2 + (if tests < sources then 1 else 0) + (if |uncovered| > 0 then 1 else 0)
    ensures tests < sources ==> r[0] == LowRatioNote
    ensures |uncovered| > 0 ==> r[|r| - 3] == UncoveredNote(uncovered)
  {
    var low := if tests < sources then [LowRatioNote] else [];
    var unc := if |uncovered| > 0 then [UncoveredNote(uncovered)] else [];
    low + unc + [CoverageCommandNote, EdgeCaseNote]
  }

  /** The coverage estimate of a set of test files for a list of sources. */
  function Coverage(tfs: seq<TestFile>, sources: seq<string>): (r: CoverageEstimate)
    ensures |tfs| == 0 || |sources| == 0 ==>
      && r.estimatedPercentage == "0%"
      && r.uncoveredAreas == (if |sources| > 0 then sources else [NoSourcesNote])
      && r.recommendations == [GenerateNote]
    ensures |tfs| > 0 && |sources| > 0 ==>
      && r.estimatedPercentage == Bucket(TotalTests(tfs), |sources|)
      && (forall x :: x in r.uncoveredAreas <==> x in sources && !HasTest(x, tfs))
      && r.recommendations == Recommendations(TotalTests(tfs), |sources|, r.uncoveredAreas)
  {
    if |tfs| == 0 || |sources| == 0 then
      CoverageEstimate("0%", if |sources| > 0 then sources else [NoSourcesNote], [GenerateNote])
    else
      var tests := TotalTests(tfs);
      var uncovered := Uncovered(sources, tfs);
      CoverageEstimate(Bucket(tests, |sources|), uncovered, Recommendations(tests, |sources|, uncovered))
  }

  /** With a test for every source, nothing is uncovered. */
  lemma {:induction false} NothingUncovered(sources: seq<string>, tfs: seq<TestFile>)
    requires forall s :: s in sources ==> HasTest(s, tfs)
    ensures Uncovered(sources, tfs) == []
    decreases |sources|
  {
    if |sources| > 0 {
      var prefix := sources[..|sources| - 1];
      assert forall s :: s in prefix ==> s in sources;
      assert sources[|sources| - 1] in sources;
      NothingUncovered(prefix, tfs);
    }
  }

  /** When every source has a test and there is at least one test case per
      source, only the two standing notes remain. */
  lemma FullCoverageNotes(tfs: seq<TestFile>, sources: seq<string>)
    requires |tfs| > 0 && |sources| > 0
    requires forall s :: s in sources ==> HasTest(s, tfs)
    requires TotalTests(tfs) >= |sources|
    ensures Coverage(tfs, sources).uncoveredAreas == []
    ensures Coverage(tfs, sources).recommendations == [CoverageCommandNote, EdgeCaseNote]
  {
    NothingUncovered(sources, tfs);
    assert Coverage(tfs, sources).uncoveredAreas == Uncovered(sources, tfs);
  }

  /** The loop totalling the test cases. */
  method CountTests(tfs: seq<TestFile>) returns (total: nat)
    ensures total == TotalTests(tfs)
  {
    total := 0;
    var i := 0;
    while i < |tfs|
      invariant 0 <= i <= |tfs|
      invariant total == TotalTests(tfs[..i])
    {
      assert tfs[..i + 1][..i] == tfs[..i];
      total := total + |tfs[i].testCases|;
      i := i + 1;
    }
    assert tfs[..|tfs|] == tfs;
  }

  /** The loop collecting the sources no test case refers to. */
  method CollectUncovered(sources: seq<string>, tfs: seq<TestFile>) returns (uncovered: seq<string>)
    ensures uncovered == Uncovered(sources, tfs)
  {
    uncovered := [];
    var k := 0;
    while k < |sources|
      invariant 0 <= k <= |sources|
      invariant uncovered == Uncovered(sources[..k], tfs)
    {
      assert sources[..k + 1][..k] == sources[..k];
      if !HasTest(sources[k], tfs) {
        uncovered := uncovered + [sources[k]];
      }
      k := k + 1;
    }
    assert sources[..|sources|] == sources;
  }

  /** The estimate for non-empty inputs, in terms of its parts. */
  lemma CoverageParts(tfs: seq<TestFile>, sources: seq<string>)
    requires |tfs| > 0 && |sources| > 0
    ensures Coverage(tfs, sources)
         == CoverageEstimate(Bucket(TotalTests(tfs), |sources|), Uncovered(sources, tfs),
                             Recommendations(TotalTests(tfs), |sources|, Uncovered(sources, tfs)))
  {
  }

  /** The estimate: total the test cases, collect the uncovered sources,
      and build the recommendations. */
  method EstimateCoverage(tfs: seq<TestFile>, sources: seq<string>) returns (c: CoverageEstimate)
    ensures c == Coverage(tfs, sources)
  {
    if |tfs| == 0 || |sources| == 0 {
      return CoverageEstimate("0%", if |sources| > 0 then sources else [NoSourcesNote], [GenerateNote]);
    }
    var total := CountTests(tfs);
    var uncovered := CollectUncovered(sources, tfs);
    var recommendations := Recommend(total, |sources|, uncovered);
    c := CoverageEstimate(Bucket(total, |sources|), uncovered, recommendations);
    CoverageParts(tfs, sources);
  }

  /** The recommendations, appended one after another. */
  method Recommend(tests: nat, sources: nat, uncovered: seq<string>) returns (r: seq<string>)
    ensures r == Recommendations(tests, sources, uncovered)
  {
    r := [];
    if tests < sources {
      r := r + [LowRatioNote];
    }
    if |uncovered| > 0 {
      r := r + [UncoveredNote(uncovered)];
    }
    r := r + [CoverageCommandNote];
    r := r + [EdgeCaseNote];
  }

  // ---------------------------------------------------------------------------
  // Reading the counts from pytest's output
  // ---------------------------------------------------------------------------

  /** The run of non-space characters at the end of `s`. */
  function TrailingWord(s: string): (w: string)
    ensures EndsWith(s, w)
    ensures forall i :: 0 <= i < |w| ==> !IsSpace(w[i])
    ensures |w| < |s| ==> IsSpace(s[|s| - |w| - 1])
    decreases |s|
  {
    if |s| == 0 || IsSpace(s[|s| - 1]) then ""
    else
      var w := TrailingWord(s[..|s| - 1]) + [s[|s| - 1]];
      assert s[|s| - |w|..] == s[..|s| - 1][|s| - |w|..] + [s[|s| - 1]];
      w
  }

  /** `s.split()[-1]`: the last whitespace-separated word, or `None` where
      there is none and Python raises `IndexError`. */
  function LastWord(s: string): (r: Option<string>)
    ensures r.Some? ==> |r.value| > 0 && forall i :: 0 <= i < |r.value| ==> !IsSpace(r.value[i])
  {
    var t := StripRight(s);
    if |t| == 0 then None
    else
      StripRightProps(s);
      Some(TrailingWord(t))
  }

  /** The count one line gives for `marker`: the last word before the
      marker's first occurrence, read as an integer; `None` when the line
      lacks the marker, or the word is missing or not a number. */
  function CountOn(line: string, marker: string): (r: Option<int>)
    ensures !Contains(line, marker) ==> r.None?
  {
    ContainsFind(line, marker);
    match FindFrom(line, marker, 0)
    case None => None
    case Some(k) =>
      match LastWord(line[..k])
      case None => None
      case Some(w) => ParseInt(w)
  }

  /** The count the whole output gives: the last line that yields one wins,
      and 0 when none does. */
  function LastCount(lines: seq<string>, marker: string): (r: int)
    ensures (forall i :: 0 <= i < |lines| ==> CountOn(lines[i], marker).None?) ==> r == 0
    decreases |lines|
  {
    if |lines| == 0 then 0
    else match CountOn(lines[|lines| - 1], marker)
      case Some(v) => v
      case None => LastCount(lines[..|lines| - 1], marker)
  }

  /** A last line that yields no count is passed over. */
  lemma LastCountStep(lines: seq<string>, marker: string)
    requires |lines| > 0 && CountOn(lines[|lines| - 1], marker).None?
    ensures LastCount(lines, marker) == LastCount(lines[..|lines| - 1], marker)
  {
  }

  /** Lines without the marker do not change the count. */
  lemma {:induction false} LastCountSkips(lines: seq<string>, tail: seq<string>, marker: string)
    requires forall i :: 0 <= i < |tail| ==> !Contains(tail[i], marker)
    ensures LastCount(lines + tail, marker) == LastCount(lines, marker)
    decreases |tail|
  {
    if |tail| == 0 {
      assert lines + tail == lines;
    } else {
      var all := lines + tail;
      var front := tail[..|tail| - 1];
      assert all[..|all| - 1] == lines + front;
      assert all[|all| - 1] == tail[|tail| - 1];
      LastCountStep(all, marker);
      LastCountSkips(lines, front, marker);
    }
  }

  /** Scanning one more line: a count it yields replaces the earlier one. */
  lemma LastCountNext(lines: seq<string>, i: nat, marker: string)
    requires i < |lines|
    ensures LastCount(lines[..i + 1], marker)
         == match CountOn(lines[i], marker) case Some(v) => v case None => LastCount(lines[..i], marker)
  {
    assert lines[..i + 1][..i] == lines[..i];
  }

  /** The count-scanning loop over the output's lines. */
  method ParseCounts(stdout: string) returns (passed: int, failed: int, skipped: int)
    ensures passed == LastCount(Split(stdout, '\n'), " passed")
    ensures failed == LastCount(Split(stdout, '\n'), " failed")
    ensures skipped == LastCount(Split(stdout, '\n'), " skipped")
  {
    var lines := Split(stdout, '\n');
    passed, failed, skipped := 0, 0, 0;
    var i := 0;
    while i < |lines|
      invariant 0 <= i <= |lines|
      invariant passed == LastCount(lines[..i], " passed")
      invariant failed == LastCount(lines[..i], " failed")
      invariant skipped == LastCount(lines[..i], " skipped")
    {
      var line := lines[i];
      LastCountNext(lines, i, " passed");
      LastCountNext(lines, i, " failed");
      LastCountNext(lines, i, " skipped");
      match CountOn(line, " passed") {
        case Some(v) => passed := v;
        case None =>
      }
      match CountOn(line, " failed") {
        case Some(v) => failed := v;
        case None =>
      }
      match CountOn(line, " skipped") {
        case Some(v) => skipped := v;
        case None =>
      }
      i := i + 1;
    }
    assert lines[..|lines|] == lines;
  }

  /** If a position disagrees with the pattern, the pattern does not start
      at `k`. */
  lemma NotAtByChar(s: string, pat: string, k: nat, x: nat)
    requires x < |pat| && (k + x >= |s| || s[k + x] != pat[x])
    ensures !At(s, pat, k)
  {
    if k + |pat| <= |s| {
      assert s[k..k + |pat|][x] == s[k + x];
    }
  }

  /** One step of `TrailingWord`: a last character that is not a space
      belongs to the word. */
  lemma TrailingWordStep(s: string)
    requires |s| > 0 && !IsSpace(s[|s| - 1])
    ensures TrailingWord(s) == TrailingWord(s[..|s| - 1]) + [s[|s| - 1]]
  {
  }

  /** A word typed after a space (or at the start) is the last word. */
  lemma {:induction false} TrailingWordAfter(pre: string, w: string)
    requires forall i :: 0 <= i < |w| ==> !IsSpace(w[i])
    requires |pre| == 0 || IsSpace(pre[|pre| - 1])
    ensures TrailingWord(pre + w) == w
    decreases |w|
  {
    if |w| == 0 {
      assert pre + w == pre;
    } else {
      var s := pre + w;
      var front := w[..|w| - 1];
      var c := w[|w| - 1];
      assert s[|s| - 1] == c;
      assert s[..|s| - 1] == pre + front;
      TrailingWordStep(s);
      TrailingWordAfter(pre, front);
      assert front + [c] == w;
    }
  }

  /** A count after a space, or at the start, is the last word before it. */
  lemma LastWordAfter(pre: string, d: string)
    requires |d| > 0 && forall i :: 0 <= i < |d| ==> IsDigit(d[i])
    requires |pre| == 0 || IsSpace(pre[|pre| - 1])
    ensures LastWord(pre + d) == Some(d)
  {
    assert (pre + d)[|pre + d| - 1] == d[|d| - 1];
    StripRightNoSpace(pre + d);
    TrailingWordAfter(pre, d);
  }

  /** The marker's first occurrence is right after the digits. */
  lemma MarkerAfterDigits(pre: string, d: string, marker: string, rest: string)
    requires |d| > 0 && forall i :: 0 <= i < |d| ==> IsDigit(d[i])
    requires |marker| >= 2 && marker[0] == ' ' && !IsDigit(marker[1]) && marker[1] !in pre
    ensures FindFrom(pre + d + marker + rest, marker, 0) == Some(|pre| + |d|)
  {
    var line := pre + d + marker + rest;
    var j := |pre| + |d|;
    assert line[j..j + |marker|] == marker;
    forall k | 0 <= k < j
      ensures !At(line, marker, k)
    {
      if k + 1 < |pre| {
        assert line[k + 1] == pre[k + 1];
        NotAtByChar(line, marker, k, 1);
      } else if k + 1 == |pre| {
        assert line[k + 1] == d[0];
        NotAtByChar(line, marker, k, 1);
      } else {
        assert line[k] == d[k - |pre|];
        NotAtByChar(line, marker, k, 0);
      }
    }
    FindFromFirst(line, marker, 0, j);
  }

  /** A count printed after a space, followed by a marker whose second
      character neither appears before the count nor is a digit, is read
      back exactly. */
  lemma CountIsRead(pre: string, n: nat, marker: string, rest: string)
    requires |marker| >= 2 && marker[0] == ' ' && !IsDigit(marker[1]) && marker[1] !in pre
    requires |pre| == 0 || IsSpace(pre[|pre| - 1])
    ensures CountOn(pre + NatToString(n) + marker + rest, marker) == Some(n)
  {
    var d := NatToString(n);
    var front := pre + d;
    var line := front + marker + rest;
    var k := |front|;
    MarkerAfterDigits(pre, d, marker, rest);
    FrontOfLine(front, marker, rest);
    LastWordAfter(pre, d);
    ParseIntNatToString(n);
    CountOnFound(line, marker, k, d);
  }

  /** The text before the marker is the text before the count and the count. */
  lemma FrontOfLine(front: string, marker: string, rest: string)
    ensures (front + marker + rest)[..|front|] == front
  {
  }

  /** Where the marker is first found and the word before it. */
  lemma CountOnFound(line: string, marker: string, k: nat, w: string)
    requires FindFrom(line, marker, 0) == Some(k)
    requires k <= |line| && LastWord(line[..k]) == Some(w)
    ensures CountOn(line, marker) == ParseInt(w)
  {
  }

  // ---------------------------------------------------------------------------
  // The sandboxed run
  // ---------------------------------------------------------------------------

  /** How writing the files into the scratch directory ends. */
  datatype WriteStage = WritesOk | WriteNotFound | WriteRaised(text: string)

  /** How the pytest process ends: it exits, runs past the timeout, cannot
      be started, or raises something else. */
  datatype SandboxRun =
    | Exited(returnCode: int, stdout: string, stderr: string)
    | TimedOut
    | PytestMissing
    | RunRaised(text: string)

  const SyntaxGateError := "Syntax errors found in test files"
  const PytestMissingError := "pytest not found - please install pytest to run tests"

  /** The command run in the scratch directory `tmpdir`, joined by spaces. */
  function PytestCommand(tmpdir: string): string {
    "python -m pytest " + tmpdir + "/tests -v --tb=short --maxfail=5"
  }

  function TimeoutError(timeout: int): string {
    "Test execution timed out after " + IntToString(timeout) + " seconds"
  }

  /** The execution record once the files are written and the process has
      ended; a missing file during the writes is read as a missing pytest. */
  function Execution(writes: WriteStage, run: SandboxRun, tmpdir: string, timeout: int): (r: TestExecutionResult)
    ensures r.success <==> writes.WritesOk? && run.Exited? && run.returnCode == 0
    ensures !(writes.WritesOk? && run.Exited?) ==>
      r.exitCode == -1 && r.testsPassed == 0 && r.testsFailed == 0 && r.testsSkipped == 0
    ensures writes.WritesOk? && run.Exited? ==>
      && r.command == PytestCommand(tmpdir)
      && r.exitCode == run.returnCode
      && r.stdout == Some(run.stdout) && r.stderr == Some(run.stderr)
      && r.testsPassed == LastCount(Split(run.stdout, '\n'), " passed")
      && r.testsFailed == LastCount(Split(run.stdout, '\n'), " failed")
      && r.testsSkipped == LastCount(Split(run.stdout, '\n'), " skipped")
    ensures writes.WriteNotFound? || (writes.WritesOk? && run.PytestMissing?) ==>
      r == ExecutionError("pytest", PytestMissingError)
    ensures writes.WritesOk? && run.TimedOut? ==>
      r.command == PytestCommand(tmpdir) && r.error == Some(TimeoutError(timeout))
  {
    match writes
    case WriteNotFound => ExecutionError("pytest", PytestMissingError)
    case WriteRaised(text) => ExecutionError("pytest", text)
    case WritesOk =>
      match run
      case Exited(rc, out, err) =>
        var lines := Split(out, '\n');
        TestExecutionResult(rc == 0, PytestCommand(tmpdir), rc, None, Some(out), Some(err),
                            LastCount(lines, " passed"), LastCount(lines, " failed"),
                            LastCount(lines, " skipped"))
      case TimedOut => ExecutionError(PytestCommand(tmpdir), TimeoutError(timeout))
      case PytestMissing => ExecutionError("pytest", PytestMissingError)
      case RunRaised(text) => ExecutionError("pytest", text)
  }

  /** The text of the `TypeError` raised by dividing one `str` by another. */
  const TypeErrorText := "unsupported operand type(s) for /: 'str' and 'str'"

  /** The execution record as the code stands: once the files are written,
      the package marker for the scratch directory is made by dividing the
      directory's name (a `str`) by a `str`, which raises `TypeError` before
      pytest is started. */
  function AsWrittenExecution(writes: WriteStage): (r: TestExecutionResult)
    ensures !r.success && r.exitCode == -1 && r.stdout.None?
    ensures writes.WritesOk? ==> r == ExecutionError("pytest", TypeErrorText)
  {
    match writes
    case WriteNotFound => ExecutionError("pytest", PytestMissingError)
    case WriteRaised(text) => ExecutionError("pytest", text)
    case WritesOk => ExecutionError("pytest", TypeErrorText)
  }

  /** The as-written record is the execution record of a run that raises
      the division's `TypeError`: the corrected model covers the code as
      written as one of its inputs. */
  lemma RaisedRunIsAsWritten(writes: WriteStage, tmpdir: string, timeout: int)
    ensures Execution(writes, RunRaised(TypeErrorText), tmpdir, timeout) == AsWrittenExecution(writes)
    ensures AsWrittenExecution(writes).testsPassed == 0
  {
  }

  /** What a sandboxed run reports, given how its execution ends. */
  function Validation(tfs: seq<TestFile>, sources: Option<seq<string>>, compile: Compiler,
                      exec: TestExecutionResult): (r: TestValidationResult)
    ensures r.syntaxValid <==> AllCompile(tfs, compile)
    ensures r.syntaxValid <==> r.syntaxErrors == []
    ensures !r.syntaxValid ==>
      && r.syntaxErrors == SyntaxErrors(tfs, compile)
      && r.testExecution == Some(ExecutionError("pytest", SyntaxGateError))
      && r.coverageEstimate.None? && r.staticAnalysisResults.None?
    ensures r.syntaxValid ==>
      && r.testExecution == Some(exec)
      && r.coverageEstimate == Some(Coverage(tfs, sources.GetOr([])))
      && r.staticAnalysisResults == Some(StaticResults(tfs))
  {
    SyntaxErrorsEmpty(tfs, compile);
    if !AllCompile(tfs, compile) then
      TestValidationResult(false, SyntaxErrors(tfs, compile),
                           Some(ExecutionError("pytest", SyntaxGateError)), None, None)
    else
      TestValidationResult(true, [], Some(exec), Some(Coverage(tfs, sources.GetOr([]))),
                           Some(StaticResults(tfs)))
  }

  /** Running the generated tests in a scratch directory `tmpdir`, with the
      package marker made as evidently intended, inside that directory. */
  method RunTestsSandboxed(tfs: seq<TestFile>, sources: Option<seq<string>>, compile: Compiler,
                           writes: WriteStage, run: SandboxRun, tmpdir: string, timeout: int)
    returns (v: TestValidationResult)
    ensures v == Validation(tfs, sources, compile, Execution(writes, run, tmpdir, timeout))
  {
    v := TestValidationResult(true, [], None, None, None);
    var valid, errors := CheckSyntax(tfs, compile);
    if !valid {
      v := v.(syntaxValid := false, syntaxErrors := errors);
      v := v.(testExecution := Some(ExecutionError("pytest", SyntaxGateError)));
      return;
    }
    var staticResults := StaticPass(tfs);
    v := v.(staticAnalysisResults := Some(staticResults));
    var exec: TestExecutionResult;
    match writes {
      case WriteNotFound => exec := ExecutionError("pytest", PytestMissingError);
      case WriteRaised(text) => exec := ExecutionError("pytest", text);
      case WritesOk =>
        match run {
          case Exited(rc, out, err) =>
            var passed, failed, skipped := ParseCounts(out);
            exec := TestExecutionResult(rc == 0, PytestCommand(tmpdir), rc, None, Some(out), Some(err),
                                        passed, failed, skipped);
          case TimedOut => exec := ExecutionError(PytestCommand(tmpdir), TimeoutError(timeout));
          case PytestMissing => exec := ExecutionError("pytest", PytestMissingError);
          case RunRaised(text) => exec := ExecutionError("pytest", text);
        }
    }
    v := v.(testExecution := Some(exec));
    var coverage := EstimateCoverage(tfs, sources.GetOr([]));
    v := v.(coverageEstimate := Some(coverage));
  }

  /** Running the generated tests as the code stands: the pytest process is
      never reached once the files are written. */
  method RunTestsSandboxedAsWritten(tfs: seq<TestFile>, sources: Option<seq<string>>, compile: Compiler,
                                    writes: WriteStage)
    returns (v: TestValidationResult)
    ensures v == Validation(tfs, sources, compile, AsWrittenExecution(writes))
  {
    v := TestValidationResult(true, [], None, None, None);
    var valid, errors := CheckSyntax(tfs, compile);
    if !valid {
      v := v.(syntaxValid := false, syntaxErrors := errors);
      v := v.(testExecution := Some(ExecutionError("pytest", SyntaxGateError)));
      return;
    }
    var staticResults := StaticPass(tfs);
    v := v.(staticAnalysisResults := Some(staticResults));
    var exec := AsWrittenExecution(writes);
    v := v.(testExecution := Some(exec));
    var coverage := EstimateCoverage(tfs, sources.GetOr([]));
    v := v.(coverageEstimate := Some(coverage));
  }

  /** The summary line pytest prints for `n` passing tests. */
  function PassedSummary(n: nat): string {
    "== " + NatToString(n) + " passed in 1s =="
  }

  /** The discrepancy: a run whose files are written and whose pytest exits
      0 with `n` passing tests is reported as a success with `n` passes once
      the marker is made inside the scratch directory, and as a failure with
      no passes as the code stands. */
  lemma PassingRunLostAsWritten(n: nat, tmpdir: string, timeout: int)
    ensures var fixed := Execution(WritesOk, Exited(0, PassedSummary(n), ""), tmpdir, timeout);
      fixed.success && fixed.testsPassed == n
    ensures var asWritten := AsWrittenExecution(WritesOk);
      !asWritten.success && asWritten.testsPassed == 0
  {
    var d := NatToString(n);
    var line := PassedSummary(n);
    assert line == "== " + d + " passed" + " in 1s ==";
    assert forall i :: 0 <= i < |d| ==> d[i] != '\n';
    assert '\n' !in line;
    SplitWithoutSeparator(line, '\n');
    CountIsRead("== ", n, " passed", " in 1s ==");
  }
}
