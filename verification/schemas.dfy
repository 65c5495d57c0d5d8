/** The records the agents exchange: BA analyses, Dev implementation
    results, Tester plans and validation reports, and the mutable `Task`. */
module Schemas {
  import opened Wrappers

  // ---------------------------------------------------------------------------
  // Business analyst
  // ---------------------------------------------------------------------------

  datatype UserStory = UserStory(id: string, title: string, description: string,
                                 acceptanceCriteria: seq<string>)

  datatype BAResponse = BAResponse(title: string, description: string,
                                   userStories: seq<UserStory>, questions: seq<string>,
                                   priority: Option<string>)

  // ---------------------------------------------------------------------------
  // Developer
  // ---------------------------------------------------------------------------

  datatype FilePlan = FilePlan(path: string, summary: string)

  datatype GeneratedFile = GeneratedFile(path: string, content: string)

  /** What the Dev model returns from its structured-output call. */
  datatype DevResponse = DevResponse(plan: seq<FilePlan>, files: seq<GeneratedFile>,
                                     explanations: map<string, string>)

  /** Outcome of one implementation attempt. The static-check report is not
      part of this model. */
  datatype ImplementationResult = ImplementationResult(
    success: bool,
    plan: seq<FilePlan>,
    files: seq<GeneratedFile>,
    explanations: map<string, string>,
    createdFiles: seq<string>,
    error: Option<string>,
    diffs: Option<map<string, string>>)

  /** `ImplementationResult(success=False, error=msg)` with every other field
      at its default. */
  function FailedImplementation(msg: string): (r: ImplementationResult)
    ensures !r.success && r.error == Some(msg)
    ensures r.plan == [] && r.files == [] && r.createdFiles == [] && r.diffs == None
  {
    ImplementationResult(false, [], [], map[], [], Some(msg), None)
  }

  /** The workspace project an agent works in: `project_id or "default"`,
      so a missing or empty id means "default". */
  function ProjectFor(projectId: Option<string>): (r: string)
    ensures r != ""
    ensures projectId.Some? && projectId.value != "" ==> r == projectId.value
  {
    if projectId.Some? && projectId.value != "" then projectId.value else "default"
  }

  // ---------------------------------------------------------------------------
  // Tester
  // ---------------------------------------------------------------------------

  /** A file to review; `source` is its text when the caller already has it. */
  datatype ArtifactRef = ArtifactRef(path: string, source: Option<string>)

  datatype TestCase = TestCase(name: string, sourceRefs: Option<seq<string>>)

  datatype TestFile = TestFile(path: string, content: string, testCases: seq<TestCase>)

  datatype RiskAssessment = RiskAssessment(level: string, summary: string,
                                           concerns: seq<string>, recommendations: seq<string>)

  datatype CoverageEstimate = CoverageEstimate(estimatedPercentage: string,
                                               uncoveredAreas: seq<string>,
                                               recommendations: seq<string>)

  datatype TestExecutionResult = TestExecutionResult(
    success: bool,
    command: string,
    exitCode: int,
    error: Option<string>,
    stdout: Option<string>,
    stderr: Option<string>,
    testsPassed: int,
    testsFailed: int,
    testsSkipped: int)

  /** A failed execution record carrying only an error text. */
  function ExecutionError(command: string, error: string): (r: TestExecutionResult)
    ensures !r.success && r.exitCode == -1 && r.error == Some(error)
    ensures r.testsPassed == 0 && r.testsFailed == 0 && r.testsSkipped == 0
  {
    TestExecutionResult(false, command, -1, Some(error), None, None, 0, 0, 0)
  }

  datatype StaticIssue = StaticIssue(kind: string, message: string)

  datatype StaticReport = StaticReport(issues: seq<StaticIssue>, checksPerformed: seq<string>)

  datatype TestValidationResult = TestValidationResult(
    syntaxValid: bool,
    syntaxErrors: seq<string>,
    testExecution: Option<TestExecutionResult>,
    coverageEstimate: Option<CoverageEstimate>,
    staticAnalysisResults: Option<map<string, StaticReport>>)

  /** The Tester's plan. The test matrix is not part of this model. */
  datatype TestPlan = TestPlan(
    title: string,
    description: string,
    tests: seq<TestFile>,
    priority: seq<string>,
    coverageCommands: string,
    riskAssessment: Option<RiskAssessment>,
    estimatedTotalEffort: string,
    validation: Option<TestValidationResult>)

  // ---------------------------------------------------------------------------
  // Task
  // ---------------------------------------------------------------------------

  /** The unit of work the Dev agent receives. Agents update its fields in
      place, so every holder of the reference sees the change. */
  class Task {
    var id: string
    var title: string
    var description: string
    var status: string
    var projectId: Option<string>
    var userStories: Option<seq<UserStory>>
    var context: Option<seq<string>>
    var artifacts: seq<string>

    constructor (id: string, title: string, description: string,
                 projectId: Option<string>, status: string)
      ensures this.id == id && this.title == title && this.description == description
      ensures this.projectId == projectId && this.status == status
      ensures userStories == None && context == None && artifacts == []
    {
      this.id := id;
      this.title := title;
      this.description := description;
      this.projectId := projectId;
      this.status := status;
      userStories := None;
      context := None;
      artifacts := [];
    }
  }
}
