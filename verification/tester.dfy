/** The Tester agent: it reads the artifacts under review, keeps those that
    parse, asks the model for a test plan, and attaches a validation to the
    plan: a sandboxed run of the generated tests when asked for, a coverage
    estimate otherwise. The model, the file reader, the Python parser, the
    file listing and the sandbox's outcome are inputs. */
module Tester {
  import opened Wrappers
  import opened Text
  import opened Schemas
  import opened TestRunner

  // ---------------------------------------------------------------------------
  // Reading the artifacts
  // ---------------------------------------------------------------------------

  /** The workspace file reader, given a path and a project: the file's text,
      or the text of the exception it raises. */
  type Reader = (string, string) -> Result<string, string>

  /** What stands in for a file that could not be read. */
  function ReadErrorText(e: string): (r: string)
    ensures StartsWith(r, "[ERROR")
  {
    var r := "[ERROR reading file: " + e + "]";
    assert r[..6] == "[ERROR";
    r
  }

  /** One artifact's text: the source it carries when that is non-empty,
      otherwise what the reader gives for its path. */
  function ReadOne(a: ArtifactRef, pid: string, read: Reader): (r: string)
    ensures a.source.Some? && a.source.value != "" ==> r == a.source.value
    ensures (a.source.None? || a.source.value == "") && read(a.path, pid).Success? ==>
      r == read(a.path, pid).value
    ensures (a.source.None? || a.source.value == "") && read(a.path, pid).Failure? ==>
      StartsWith(r, "[ERROR")
  {
    if a.source.Some? && a.source.value != "" then a.source.value
    else match read(a.path, pid)
      case Success(text) => text
      case Failure(e) => ReadErrorText(e)
  }

  /** The artifacts' paths, in order. */
  function SourcePaths(refs: seq<ArtifactRef>): (r: seq<string>)
    ensures |r| == |refs|
    ensures forall i :: 0 <= i < |refs| ==> r[i] == refs[i].path
  {
    seq(|refs|, i requires 0 <= i < |refs| => refs[i].path)
  }

  lemma SourcePathsSnoc(refs: seq<ArtifactRef>)
    requires |refs| > 0
    ensures SourcePaths(refs) == SourcePaths(refs[..|refs| - 1]) + [refs[|refs| - 1].path]
  {
  }

  /** The contents read for a list of artifacts, keyed by path; of several
      artifacts with one path, the last is kept. */
  function ReadAll(refs: seq<ArtifactRef>, pid: string, read: Reader): (r: map<string, string>)
    ensures forall p :: p in r <==> p in SourcePaths(refs)
    decreases |refs|
  {
    if |refs| == 0 then map[]
    else
      var last := refs[|refs| - 1];
      SourcePathsSnoc(refs);
      ReadAll(refs[..|refs| - 1], pid, read)[last.path := ReadOne(last, pid, read)]
  }

  /** A path's content is read from the last artifact with that path. */
  lemma {:induction false} ReadAllLastWins(refs: seq<ArtifactRef>, pid: string, read: Reader, i: nat)
    requires i < |refs|
    requires forall j :: i < j < |refs| ==> refs[j].path != refs[i].path
    ensures ReadAll(refs, pid, read)[refs[i].path] == ReadOne(refs[i], pid, read)
    decreases |refs|
  {
    if i < |refs| - 1 {
      var prefix := refs[..|refs| - 1];
      assert prefix[i] == refs[i];
      ReadAllLastWins(prefix, pid, read, i);
    }
  }

  /** Reading the artifacts one after another into a dictionary. */
  method ReadSourceFiles(refs: seq<ArtifactRef>, projectId: Option<string>, read: Reader)
    returns (contents: map<string, string>)
    ensures contents == ReadAll(refs, ProjectFor(projectId), read)
  {
    var pid := ProjectFor(projectId);
    contents := map[];
    var i := 0;
    while i < |refs|
      invariant 0 <= i <= |refs|
      invariant contents == ReadAll(refs[..i], pid, read)
    {
      var a := refs[i];
      if a.source.Some? && a.source.value != "" {
        contents := contents[a.path := a.source.value];
      } else {
        match read(a.path, pid) {
          case Success(text) => contents := contents[a.path := text];
          case Failure(e) => contents := contents[a.path := ReadErrorText(e)];
        }
      }
      assert refs[..i + 1][..i] == refs[..i];
      i := i + 1;
    }
    assert refs[..|refs|] == refs;
  }

  // ---------------------------------------------------------------------------
  // Keeping the sources that parse
  // ---------------------------------------------------------------------------

  /** Whether a content is worth showing the model: not an unreadable file's
      marker, and accepted by the Python parser. */
  predicate Usable(content: string, parses: string -> bool) {
    !StartsWith(content, "[ERROR") && parses(content)
  }

  /** The contents kept for the prompt. */
  function ValidSources(contents: map<string, string>, parses: string -> bool): (r: map<string, string>)
    ensures forall p :: p in r <==> p in contents && Usable(contents[p], parses)
    ensures forall p :: p in r ==> r[p] == contents[p]
  {
    map p | p in contents && Usable(contents[p], parses) :: contents[p]
  }

  /** Going over the contents read and keeping those that parse. */
  method FilterValid(contents: map<string, string>, parses: string -> bool)
    returns (valid: map<string, string>)
    ensures valid == ValidSources(contents, parses)
  {
    valid := map[];
    var todo := contents.Keys;
    while todo != {}
      invariant todo <= contents.Keys
      invariant forall p :: p in valid <==> p in contents && p !in todo && Usable(contents[p], parses)
      invariant forall p :: p in valid ==> valid[p] == contents[p]
      decreases todo
    {
      var p :| p in todo;
      if Usable(contents[p], parses) {
        valid := valid[p := contents[p]];
      }
      todo := todo - {p};
    }
  }

  /** An artifact without a source of its own whose read fails is never
      shown to the model, whatever the parser says. */
  lemma UnreadableWithheld(refs: seq<ArtifactRef>, pid: string, read: Reader, parses: string -> bool, i: nat)
    requires i < |refs|
    requires forall j :: i < j < |refs| ==> refs[j].path != refs[i].path
    requires refs[i].source.None? || refs[i].source.value == ""
    requires read(refs[i].path, pid).Failure?
    ensures refs[i].path !in ValidSources(ReadAll(refs, pid, read), parses)
  {
    ReadAllLastWins(refs, pid, read, i);
  }

  // ---------------------------------------------------------------------------
  // Reviewing artifacts
  // ---------------------------------------------------------------------------

  /** The model asked for a plan, given the sources that parse and the
      caller's context: the plan, or the text of the exception raised while
      asking or while reading its answer into a plan. */
  type Model = (map<string, string>, Option<seq<string>>) -> Result<TestPlan, string>

  /** What the Tester depends on besides its arguments: whether the API key is
      configured, the reader, the parser, the model, the compiler used for
      the syntax gate, and how a sandboxed run ends in the scratch
      directory `tmpdir`. */
  datatype Env = Env(hasKey: bool, read: Reader, parses: string -> bool, model: Model,
                     compile: Compiler, writes: WriteStage, run: SandboxRun, tmpdir: string)

  /** The sandbox's default timeout, in seconds. */
  const SandboxTimeout := 60

  const Priorities: seq<string> := ["smoke", "critical", "high", "medium", "low"]

  const DefaultCoverageCommand := "pytest --maxfail=1 --disable-warnings -q"

  /** A plan with no tests that reports an error. */
  function ErrorPlan(title: string, description: string, level: string, summary: string,
                     concern: string, recommendation: string, effort: string,
                     validation: Option<TestValidationResult>): TestPlan {
    TestPlan(title, description, [], Priorities, DefaultCoverageCommand,
             Some(RiskAssessment(level, summary, [concern], [recommendation])), effort, validation)
  }

  const NoKeyPlan := ErrorPlan(
    "Error: API Key Not Configured",
    "Tester agent requires OPENROUTER_API_KEY to be configured",
    "critical",
    "Cannot perform review: API key not configured",
    "OPENROUTER_API_KEY environment variable is not set",
    "Configure the OPENROUTER_API_KEY environment variable",
    "unknown", None)

  const NoArtifactsPlan := ErrorPlan(
    "Error: No Artifacts Provided",
    "No code artifacts were provided for review. Please provide at least one file to analyze.",
    "high",
    "No artifacts provided for test generation",
    "artifact_refs list is empty",
    "Provide file paths to review via artifact_refs",
    "none",
    Some(TestValidationResult(true, ["No files to validate"], None, None, None)))

  function GenerationFailedPlan(e: string): TestPlan {
    ErrorPlan("Error: Test Generation Failed", "Failed to generate test plan: " + e, "high",
              "Test generation failed with error: " + e, "LLM structured output call failed",
              "Check API connectivity and model availability", "unknown", None)
  }

  /** What the model answers for these artifacts. */
  function Asked(refs: seq<ArtifactRef>, projectId: Option<string>, context: Option<seq<string>>,
                 env: Env): Result<TestPlan, string> {
    env.model(ValidSources(ReadAll(refs, ProjectFor(projectId), env.read), env.parses), context)
  }

  /** The validation attached to the model's plan: the sandboxed run when
      tests were asked to run and there are some, otherwise a syntax-valid
      result with only a coverage estimate. The run is the corrected one,
      in which pytest is started; the code as written never starts it, and
      `CheckedAsWritten` shows that this is the instance of `env.run` that
      raises the division's `TypeError`. */
  function Checked(tests: seq<TestFile>, sources: seq<string>, runTests: bool, env: Env): (r: TestValidationResult)
    ensures r.testExecution.Some? <==> runTests && |tests| > 0
    ensures !r.syntaxValid ==> runTests && r.syntaxErrors == SyntaxErrors(tests, env.compile)
  {
    if runTests && |tests| > 0 then
      Validation(tests, Some(sources), env.compile, Execution(env.writes, env.run, env.tmpdir, SandboxTimeout))
    else TestValidationResult(true, [], None, Some(Coverage(tests, sources)), None)
  }

  /** Without a run, the validation is syntax-valid and holds the coverage
      estimate of the plan's tests against the artifacts; with one, tests
      that all compile get the sandbox's execution record for `env.run`, and
      the estimate is the same. */
  lemma CheckedParts(tests: seq<TestFile>, sources: seq<string>, runTests: bool, env: Env)
    ensures var r := Checked(tests, sources, runTests, env);
      && (!(runTests && |tests| > 0) ==> r.syntaxValid && r.coverageEstimate == Some(Coverage(tests, sources)))
      && (runTests && |tests| > 0 && AllCompile(tests, env.compile) ==>
            && r.testExecution == Some(Execution(env.writes, env.run, env.tmpdir, SandboxTimeout))
            && r.coverageEstimate == Some(Coverage(tests, sources)))
  {
  }

  /** The code as written: when the sandbox's run raises the `TypeError`
      of dividing one `str` by another, which is what happens as soon as the
      files are written, the validation is the as-written one, and no test
      passes. */
  lemma CheckedAsWritten(tests: seq<TestFile>, sources: seq<string>, env: Env)
    requires env.run == RunRaised(TypeErrorText) && |tests| > 0
    ensures Checked(tests, sources, true, env)
         == Validation(tests, Some(sources), env.compile, AsWrittenExecution(env.writes))
    ensures var ex := Checked(tests, sources, true, env).testExecution;
      ex.Some? ==> !ex.value.success && ex.value.testsPassed == 0
  {
    RaisedRunIsAsWritten(env.writes, env.tmpdir, SandboxTimeout);
  }

  /** The plan the model's answer leads to: an error plan when asking
      failed, otherwise the model's plan with the validation attached. */
  function Generated(refs: seq<ArtifactRef>, projectId: Option<string>, context: Option<seq<string>>,
                     runTests: bool, env: Env): (plan: TestPlan)
    ensures Asked(refs, projectId, context, env).Failure? ==>
      plan == GenerationFailedPlan(Asked(refs, projectId, context, env).error)
    ensures Asked(refs, projectId, context, env).Success? ==>
      var given := Asked(refs, projectId, context, env).value;
      && plan.(validation := None) == given.(validation := None)
      && plan.validation == Some(Checked(given.tests, SourcePaths(refs), runTests, env))
  {
    match Asked(refs, projectId, context, env)
    case Failure(e) => GenerationFailedPlan(e)
    case Success(given) =>
      given.(validation := Some(Checked(given.tests, SourcePaths(refs), runTests, env)))
  }

  /** The plan a review ends with. The key is checked before the artifacts,
      and the model is asked only once both checks pass. */
  function Review(refs: seq<ArtifactRef>, projectId: Option<string>, context: Option<seq<string>>,
                  runTests: bool, env: Env): (plan: TestPlan)
    ensures !env.hasKey ==> plan == NoKeyPlan
    ensures env.hasKey && |refs| == 0 ==> plan == NoArtifactsPlan
    ensures env.hasKey && |refs| > 0 ==> plan == Generated(refs, projectId, context, runTests, env)
  {
    if !env.hasKey then NoKeyPlan
    else if |refs| == 0 then NoArtifactsPlan
    else Generated(refs, projectId, context, runTests, env)
  }

  /** Every test in a plan comes from the model: the error plans carry none. */
  lemma TestsComeFromModel(refs: seq<ArtifactRef>, projectId: Option<string>, context: Option<seq<string>>,
                           runTests: bool, env: Env)
    ensures var plan := Review(refs, projectId, context, runTests, env);
      plan.tests != [] ==>
        && env.hasKey && |refs| > 0
        && Asked(refs, projectId, context, env).Success?
        && plan.tests == Asked(refs, projectId, context, env).value.tests
  {
  }

  /** Tests are executed only when the caller asks for it and the model
      wrote some; then failing compilation stops them before they run. */
  lemma ExecutionOnlyWhenAsked(refs: seq<ArtifactRef>, projectId: Option<string>, context: Option<seq<string>>,
                               runTests: bool, env: Env)
    ensures var plan := Review(refs, projectId, context, runTests, env);
      && (plan.validation.Some? && plan.validation.value.testExecution.Some? ==>
            runTests && |plan.tests| > 0)
      && (plan.validation.Some? && !plan.validation.value.syntaxValid ==>
            runTests && plan.validation.value.syntaxErrors == SyntaxErrors(plan.tests, env.compile))
  {
    var plan := Review(refs, projectId, context, runTests, env);
    if env.hasKey && |refs| > 0 && Asked(refs, projectId, context, env).Success? {
      var given := Asked(refs, projectId, context, env).value;
      assert plan.tests == given.tests;
    }
  }

  /** Reviewing artifacts: the checks, then reading and filtering the
      sources, asking the model and validating its plan. */
  method ReviewAndGenerateTests(refs: seq<ArtifactRef>, projectId: Option<string>,
                                context: Option<seq<string>>, runTests: bool, env: Env)
    returns (plan: TestPlan)
    ensures plan == Review(refs, projectId, context, runTests, env)
  {
    if !env.hasKey {
      return NoKeyPlan;
    }
    if |refs| == 0 {
      return NoArtifactsPlan;
    }
    plan := Generate(refs, projectId, context, runTests, env);
  }

  /** Once both checks pass: reading and filtering the sources, asking the
      model, then validating its plan. */
  method Generate(refs: seq<ArtifactRef>, projectId: Option<string>,
                  context: Option<seq<string>>, runTests: bool, env: Env)
    returns (plan: TestPlan)
    ensures plan == Generated(refs, projectId, context, runTests, env)
  {
    var contents := ReadSourceFiles(refs, projectId, env.read);
    var valid := FilterValid(contents, env.parses);
    match env.model(valid, context) {
      case Failure(e) =>
        plan := GenerationFailedPlan(e);
      case Success(given) =>
        var sources := SourcePaths(refs);
        var validation: TestValidationResult;
        if runTests && |given.tests| > 0 {
          validation := RunTestsSandboxed(given.tests, Some(sources), env.compile,
                                          env.writes, env.run, env.tmpdir, SandboxTimeout);
        } else {
          var coverage := EstimateCoverage(given.tests, sources);
          validation := TestValidationResult(true, [], None, Some(coverage), None);
        }
        plan := given.(validation := Some(validation));
    }
  }

  // ---------------------------------------------------------------------------
  // Reviewing a project
  // ---------------------------------------------------------------------------

  /** A listed file the project review picks up: Python source that is not
      a test file at the top level and not cached bytecode. */
  predicate Reviewable(f: string) {
    && EndsWith(f, ".py")
    && !StartsWith(f, "test_")
    && !StartsWith(f, "tests/")
    && !Contains(f, "__pycache__")
  }

  /** Test modules at the top of the project and everything under its
      `tests` directory are left out, as is anything that is not Python. */
  lemma TestFilesSkipped(name: string)
    ensures !Reviewable("test_" + name) && !Reviewable("tests/" + name)
    ensures !EndsWith(name, ".py") ==> !Reviewable(name)
  {
    assert ("test_" + name)[..5] == "test_";
    assert ("tests/" + name)[..6] == "tests/";
  }

  /** The listed files the review picks up, in listing order. */
  function Discover(files: seq<string>): (r: seq<string>)
    ensures forall f :: f in r <==> f in files && Reviewable(f)
    ensures |r| <= |files|
  {
    if |files| == 0 then []
    else if Reviewable(files[0]) then [files[0]] + Discover(files[1..])
    else Discover(files[1..])
  }

  /** Artifacts for paths, with no source of their own. */
  function AsRefs(paths: seq<string>): (r: seq<ArtifactRef>)
    ensures SourcePaths(r) == paths
    ensures forall i :: 0 <= i < |r| ==> r[i].source.None?
  {
    seq(|paths|, i requires 0 <= i < |paths| => ArtifactRef(paths[i], None))
  }

  const ReviewFailedConcern := "Project file access failed"

  function ReviewFailedPlan(e: string): TestPlan {
    ErrorPlan("Error: Project Review Failed", "Failed to list project files: " + e, "high",
              "Could not access project files: " + e, ReviewFailedConcern,
              "Verify project_id and workspace permissions", "unknown", None)
  }

  /** Without running tests a plan never carries an execution, and its
      validation, if any, is syntax-valid. */
  lemma NoExecutionWithoutRun(refs: seq<ArtifactRef>, projectId: Option<string>,
                              context: Option<seq<string>>, env: Env)
    ensures var plan := Review(refs, projectId, context, false, env);
      plan.validation.Some? ==> plan.validation.value.testExecution.None? && plan.validation.value.syntaxValid
  {
  }

  /** The artifacts a project review covers: the given paths when there
      are any, otherwise the reviewable files of the listing `listed` of the
      project directory, or the listing's error. */
  function ProjectRefs(filePaths: Option<seq<string>>, listed: Result<seq<string>, string>)
    : (r: Result<seq<ArtifactRef>, string>)
    ensures filePaths.Some? && |filePaths.value| > 0 ==> r == Success(AsRefs(filePaths.value))
    ensures !(filePaths.Some? && |filePaths.value| > 0) ==>
      && (listed.Failure? ==> r == Failure(listed.error))
      && (listed.Success? ==> r == Success(AsRefs(Discover(listed.value))))
  {
    if filePaths.Some? && |filePaths.value| > 0 then Success(AsRefs(filePaths.value))
    else match listed
      case Failure(e) => Failure(e)
      case Success(files) => Success(AsRefs(Discover(files)))
  }

  /** Reviewing a project, without running tests. */
  method ReviewProject(projectId: string, filePaths: Option<seq<string>>, context: Option<seq<string>>,
                       listed: Result<seq<string>, string>, env: Env)
    returns (plan: TestPlan)
    ensures ProjectRefs(filePaths, listed).Failure? ==>
      plan == ReviewFailedPlan(ProjectRefs(filePaths, listed).error)
    ensures ProjectRefs(filePaths, listed).Success? ==>
      plan == Review(ProjectRefs(filePaths, listed).value, Some(projectId), context, false, env)
    ensures plan.validation.Some? ==>
      plan.validation.value.testExecution.None? && plan.validation.value.syntaxValid
  {
    match ProjectRefs(filePaths, listed) {
      case Failure(e) =>
        return ReviewFailedPlan(e);
      case Success(refs) =>
        plan := ReviewAndGenerateTests(refs, Some(projectId), context, false, env);
        NoExecutionWithoutRun(refs, Some(projectId), context, env);
    }
  }

  /** A project whose listing holds nothing reviewable is reported as having
      no artifacts. */
  lemma {:induction false} NothingReviewable(files: seq<string>)
    requires forall f :: f in files ==> !Reviewable(f)
    ensures Discover(files) == []
  {
    if |files| > 0 {
      assert files[0] in files;
      assert forall f :: f in files[1..] ==> f in files;
      NothingReviewable(files[1..]);
    }
  }

  lemma EmptyProjectReported(projectId: string, filePaths: Option<seq<string>>, context: Option<seq<string>>,
                              files: seq<string>, env: Env)
    requires env.hasKey
    requires filePaths.None? || filePaths.value == []
    requires forall f :: f in files ==> !Reviewable(f)
    ensures ProjectRefs(filePaths, Success(files)) == Success([])
    ensures Review(ProjectRefs(filePaths, Success(files)).value, Some(projectId), context, false, env)
      == NoArtifactsPlan
  {
    NothingReviewable(files);
  }
}
