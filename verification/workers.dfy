/** The three worker nodes. Each turns its specialist's outcome into a
    partial update signed with the worker's name; BA and Dev also update the
    shared `Task` in place. The specialists themselves are inputs. */
module Workers {
  import opened Wrappers
  import opened Text
  import opened Schemas
  import opened State
  import opened Ba

  datatype BaOutcome = BaReturned(reply: BaReply) | BaRaised(msg: string)

  datatype DevOutcome = DevReturned(result: ImplementationResult) | DevRaised(msg: string)

  datatype TesterOutcome = TesterReturned(plan: TestPlan) | TesterRaised(msg: string)

  const ErrorPrefix: string := "[ERROR]"

  /** An update carrying one signed message and the hand-back to the Manager. */
  function Say(name: string, text: string, next: string): (u: Update)
    ensures u.messages == [Ai(name, text)] && u.nextAgent == Set(next)
    ensures u.task.Keep? && u.baResult.Keep? && u.devResult.Keep? && u.testerResult.Keep?
    ensures u.artifacts.Keep? && u.status.Keep? && u.clarifyingQuestions.Keep?
    ensures u.finalResponse.Keep? && u.errorMessage.Keep? && u.iterationCount.Keep?
  {
    NoChange.(messages := [Ai(name, text)], nextAgent := Set(next))
  }

  /** Writes of a failed worker turn: status "failed" and the error text. */
  function Fail(u: Update, error: string): Update {
    u.(status := Set("failed"), errorMessage := Set(Some(error)))
  }

  // ---------------------------------------------------------------------------
  // Task creation
  // ---------------------------------------------------------------------------

  function TaskTitle(request: string): string {
    "Task for: " + Take(request, 50) + "..."
  }

  /** `create_task_from_state`; `id` stands for the generated identifier. */
  method CreateTaskFromState(s: TeamState, id: string) returns (t: Task)
    ensures fresh(t)
    ensures t.id == id && t.title == TaskTitle(s.userRequest) && t.description == s.userRequest
    ensures t.projectId == s.projectId && t.status == "in_progress"
    ensures t.userStories == None && t.context == None && t.artifacts == []
  {
    t := new Task(id, TaskTitle(s.userRequest), s.userRequest, s.projectId, "in_progress");
  }

  /** The title keeps at most 50 characters of the request, a prefix of it. */
  lemma TaskTitleShape(request: string)
    ensures StartsWith(TaskTitle(request), "Task for: ") && EndsWith(TaskTitle(request), "...")
    ensures |TaskTitle(request)| <= 10 + 50 + 3
    ensures StartsWith(request, TaskTitle(request)[10..|TaskTitle(request)| - 3])
  {
    assert TaskTitle(request)[10..|TaskTitle(request)| - 3] == Take(request, 50);
  }

  // ---------------------------------------------------------------------------
  // BA worker
  // ---------------------------------------------------------------------------

  /** `ba_node`'s returned update. */
  function BaUpdate(s: TeamState, o: BaOutcome): (u: Update)
    ensures |u.messages| == 1 && u.messages[0].Ai? && u.messages[0].name == "BA"
    ensures u.iterationCount.Keep? && u.finalResponse.Keep? && u.artifacts.Keep?
    ensures u.devResult.Keep? && u.testerResult.Keep?
    ensures u.task.Keep? || u.task == Set(s.task)
    // errors: status "failed" with the error text, "Unknown error" when absent
    ensures o.BaRaised? ==>
      u.status == Set("failed") && u.errorMessage == Set(Some(o.msg)) && u.baResult.Keep?
    ensures o.BaReturned? && o.reply.status == Some("error") ==>
      u.status == Set("failed") && u.errorMessage == Set(Some(o.reply.error.GetOr("Unknown error")))
      && u.nextAgent == Set("FINISH") && u.baResult.Keep?
    // clarification: result, questions and the waiting status are stored
    ensures o.BaReturned? && o.reply.status == Some("clarify") ==>
      u.baResult == Set(o.reply.response) && u.clarifyingQuestions == Set(o.reply.questions.GetOr([]))
      && u.status == Set("waiting_for_clarification") && u.errorMessage.Keep?
    // completion: the result is stored, status and error are untouched
    ensures o.BaReturned? && o.reply.status != Some("error") && o.reply.status != Some("clarify") ==>
      u.baResult == Set(o.reply.response) && u.status.Keep? && u.errorMessage.Keep?
      && u.clarifyingQuestions.Keep?
  {
    match o
    case BaRaised(e) =>
      Fail(Say("BA", "BA Analysis Exception: " + e, "manager"), e)
    case BaReturned(r) =>
      if r.status == Some("error") then
        var err := r.error.GetOr("Unknown error");
        Fail(Say("BA", "BA Analysis Failed: " + err, "FINISH"), err)
      else if r.status == Some("clarify") then
        var qs := r.questions.GetOr([]);
        Say("BA", "BA needs clarification. Questions: " + Join(qs, ", "), "manager")
          .(baResult := Set(r.response), clarifyingQuestions := Set(qs),
            status := Set("waiting_for_clarification"))
      else
        var stories := r.userStories.GetOr([]);
        var title := if r.response.Some? then r.response.value.title else "N/A";
        Say("BA", "BA Analysis Complete. Generated " + NatToString(|stories|) + " user stories. Title: " + title, "manager")
          .(baResult := Set(r.response), task := Set(s.task))
  }

  /** Whether a BA turn writes the analysed stories into the `Task`. */
  predicate BaStoresStories(s: TeamState, o: BaOutcome) {
    s.task.Some? && o.BaReturned? && o.reply.status != Some("error")
    && o.reply.status != Some("clarify") && o.reply.response.Some?
  }

  /** `ba_node`: on completion it also copies the stories into the `Task`. */
  method BaNode(s: TeamState, o: BaOutcome) returns (u: Update)
    modifies if s.task.Some? then {s.task.value} else {}
    ensures u == BaUpdate(s, o)
    ensures BaStoresStories(s, o) ==>
      s.task.value.userStories == Some(o.reply.response.value.userStories)
      && s.task.value.description == old(s.task.value.description)
      && s.task.value.artifacts == old(s.task.value.artifacts)
      && s.task.value.context == old(s.task.value.context)
    ensures !BaStoresStories(s, o) && s.task.Some? ==> unchanged(s.task.value)
  {
    u := BaUpdate(s, o);
    if BaStoresStories(s, o) {
      s.task.value.userStories := Some(o.reply.response.value.userStories);
    }
  }

  // ---------------------------------------------------------------------------
  // Dev worker
  // ---------------------------------------------------------------------------

  /** Created paths that are not error reports, in their original order. */
  function ValidFiles(files: seq<string>): (r: seq<string>)
    ensures |r| <= |files|
    ensures forall x :: x in r <==> x in files && !StartsWith(x, ErrorPrefix)
    decreases |files|
  {
    if |files| == 0 then []
    else if StartsWith(files[0], ErrorPrefix) then ValidFiles(files[1..])
    else [files[0]] + ValidFiles(files[1..])
  }

  /** Dev's success message: the count of valid files and the first three
      of them by name, with "..." when there are more. */
  function DevSuccessText(valid: seq<string>): (r: string)
    ensures StartsWith(r, "Dev Implementation Complete. Created " + NatToString(|valid|) + " files: ")
    ensures forall i :: 0 <= i < |valid| && i < 3 ==> Contains(r, valid[i])
    ensures |valid| > 3 ==> EndsWith(r, "...")
  {
    var head := "Dev Implementation Complete. Created " + NatToString(|valid|) + " files: ";
    var shown := if |valid| <= 3 then valid else valid[..3];
    var tail := if |valid| > 3 then "..." else "";
    ShownNamesListed(head, shown, tail);
    head + Join(shown, ", ") + tail
  }

  lemma ShownNamesListed(head: string, shown: seq<string>, tail: string)
    ensures var r := head + Join(shown, ", ") + tail;
      && StartsWith(r, head) && EndsWith(r, tail)
      && forall i :: 0 <= i < |shown| ==> Contains(r, shown[i])
  {
    var r := head + Join(shown, ", ") + tail;
    assert r[..|head|] == head;
    assert r[|r| - |tail|..] == tail;
    JoinContainsEvery(shown, ", ");
    forall i | 0 <= i < |shown|
      ensures Contains(r, shown[i])
    {
      ContainsInside(head, Join(shown, ", "), tail, shown[i]);
    }
  }

  /** The error text of a failed implementation (an empty one is falsy). */
  function DevErrorText(r: ImplementationResult): string {
    if r.error.Some? && r.error.value != "" then r.error.value else "Implementation failed"
  }

  /** `dev_node`'s returned update without its task write. */
  function DevCore(s: TeamState, o: DevOutcome): (u: Update)
    ensures |u.messages| == 1 && u.messages[0].Ai? && u.messages[0].name == "Dev"
    ensures u.nextAgent == Set("manager")
    ensures u.iterationCount.Keep? && u.finalResponse.Keep? && u.baResult.Keep?
    ensures u.testerResult.Keep? && u.clarifyingQuestions.Keep? && u.task.Keep?
    ensures o.DevRaised? ==>
      u.status == Set("failed") && u.errorMessage == Set(Some(o.msg))
      && u.devResult.Keep? && u.artifacts.Keep?
    // failure: nothing of the attempt is kept
    ensures o.DevReturned? && !o.result.success ==>
      u.status == Set("failed") && u.errorMessage == Set(Some(DevErrorText(o.result)))
      && u.devResult.Keep? && u.artifacts.Keep?
    // success: artifacts become the union with the valid created files
    ensures o.DevReturned? && o.result.success ==>
      u.devResult == Set(Some(o.result)) && u.status.Keep? && u.errorMessage.Keep?
      && u.artifacts.Set? && s.artifacts <= u.artifacts.value
      && (forall x :: x in u.artifacts.value <==>
            x in s.artifacts || (x in o.result.createdFiles && !StartsWith(x, ErrorPrefix)))
  {
    match o
    case DevRaised(e) =>
      Fail(Say("Dev", "Dev Implementation Exception: " + e, "manager"), e)
    case DevReturned(r) =>
      if !r.success then
        var err := DevErrorText(r);
        Fail(Say("Dev", "Dev Implementation Failed: " + err, "manager"), err)
      else
        var valid := ValidFiles(r.createdFiles);
        Say("Dev", DevSuccessText(valid), "manager")
          .(devResult := Set(Some(r)), artifacts := Set(s.artifacts + set x | x in valid))
  }

  /** `dev_node`'s returned update; `t` is the `Task` it worked on, stored in
      the state only when the implementation succeeded. */
  function DevUpdate(s: TeamState, o: DevOutcome, t: Task): (u: Update)
    ensures u.(task := Keep) == DevCore(s, o)
    ensures u.task == if o.DevReturned? && o.result.success then Set(Some(t)) else Keep
  {
    if o.DevReturned? && o.result.success then DevCore(s, o).(task := Set(Some(t))) else DevCore(s, o)
  }

  /** Whether Dev copies the BA stories into the `Task` before implementing. */
  predicate BaHasStories(s: TeamState) {
    s.baResult.Some? && |s.baResult.value.userStories| > 0
  }

  function BaAnalysisSuffix(s: TeamState): string {
    if BaHasStories(s) then "\n\nBA Analysis: " + s.baResult.value.description else ""
  }

  /** `dev_node`: takes the state's task or creates one, copies in the BA
      stories, and on success records the valid files in the `Task`. A task
      created here is dropped again when the implementation fails. */
  method DevNode(s: TeamState, o: DevOutcome, newId: string) returns (u: Update, t: Task)
    modifies if s.task.Some? then {s.task.value} else {}
    ensures s.task.Some? ==> t == s.task.value
    ensures s.task.None? ==> fresh(t) && t.id == newId && t.title == TaskTitle(s.userRequest)
                             && t.status == "in_progress" && t.projectId == s.projectId && t.context == None
    ensures s.task.Some? ==> t.id == old(t.id) && t.title == old(t.title) && t.status == old(t.status)
                             && t.projectId == old(t.projectId) && t.context == old(t.context)
    ensures u == DevUpdate(s, o, t)
    ensures t.description ==
      (if s.task.Some? then old(s.task.value.description) else s.userRequest) + BaAnalysisSuffix(s)
    ensures t.userStories ==
      (if BaHasStories(s) then Some(s.baResult.value.userStories)
       else if s.task.Some? then old(s.task.value.userStories) else None)
    ensures t.artifacts ==
      (if o.DevReturned? && o.result.success then ValidFiles(o.result.createdFiles)
       else if s.task.Some? then old(s.task.value.artifacts) else [])
  {
    if s.task.Some? {
      t := s.task.value;
    } else {
      t := CreateTaskFromState(s, newId);
    }
    CopyStories(s, t);
    u := DevUpdate(s, o, t);
    if o.DevReturned? && o.result.success {
      t.artifacts := ValidFiles(o.result.createdFiles);
    }
  }

  /** The BA's stories, when it produced any, are copied into the `Task` and
      its analysis appended to the description. */
  method CopyStories(s: TeamState, t: Task)
    modifies t
    ensures t.description == old(t.description) + BaAnalysisSuffix(s)
    ensures t.userStories == if BaHasStories(s) then Some(s.baResult.value.userStories) else old(t.userStories)
    ensures t.id == old(t.id) && t.title == old(t.title) && t.status == old(t.status)
    ensures t.projectId == old(t.projectId) && t.context == old(t.context) && t.artifacts == old(t.artifacts)
  {
    if BaHasStories(s) {
      t.userStories := Some(s.baResult.value.userStories);
      t.description := t.description + BaAnalysisSuffix(s);
    }
  }

  /** Dev never adds an error report to the artifacts. */
  lemma DevAddsNoErrorReports(s: TeamState, o: DevOutcome, x: string)
    requires DevCore(s, o).artifacts.Set?
    requires x in DevCore(s, o).artifacts.value && x !in s.artifacts
    ensures !StartsWith(x, ErrorPrefix)
  {
  }

  // ---------------------------------------------------------------------------
  // Tester worker
  // ---------------------------------------------------------------------------

  /** The artifacts handed to the Tester: those not marked as errors. */
  function ReviewRefs(artifacts: set<string>): (r: set<string>)
    ensures r <= artifacts
    ensures forall a :: a in r <==> a in artifacts && !StartsWith(a, ErrorPrefix)
  {
    set a | a in artifacts && !StartsWith(a, ErrorPrefix)
  }

  /** The story lines the Tester receives as context. */
  function StoryLines(stories: seq<UserStory>): (r: seq<string>)
    ensures |r| == |stories|
    ensures forall i :: 0 <= i < |stories| ==> r[i] == "  - " + stories[i].title + ": " + stories[i].description
    decreases |stories|
  {
    if |stories| == 0 then []
    else ["  - " + stories[0].title + ": " + stories[0].description] + StoryLines(stories[1..])
  }

  /** The context passed to the Tester (`None` when it would be empty). */
  function TesterContext(s: TeamState): (r: Option<seq<string>>)
    ensures r.Some? <==> BaHasStories(s)
    ensures r.Some? ==> |r.value| == 1 + |s.baResult.value.userStories| && r.value[0] == "User Stories:"
  {
    if BaHasStories(s) then Some(["User Stories:"] + StoryLines(s.baResult.value.userStories)) else None
  }

  function TestPaths(tests: seq<TestFile>): (r: seq<string>)
    ensures |r| == |tests|
    ensures forall i :: 0 <= i < |tests| ==> r[i] == tests[i].path
    decreases |tests|
  {
    if |tests| == 0 then [] else [tests[0].path] + TestPaths(tests[1..])
  }

  function Concerns(p: TestPlan): seq<string> {
    if p.riskAssessment.Some? then p.riskAssessment.value.concerns else []
  }

  /** The Tester's message: the fixed opening, then the number of test
      files and of potential issues, each only when there are some. */
  function TesterText(files: seq<string>, issues: seq<string>): (r: string)
    ensures StartsWith(r, "Tester Review Complete.")
    ensures |files| == 0 && |issues| == 0 <==> r == "Tester Review Complete."
  {
    "Tester Review Complete."
    + (if |files| > 0 then " Generated " + NatToString(|files|) + " test files." else "")
    + (if |issues| > 0 then " Found " + NatToString(|issues|) + " potential issues." else "")
  }

  /** `tester_node`'s returned update. */
  function TesterUpdate(s: TeamState, o: TesterOutcome): (u: Update)
    ensures |u.messages| == 1 && u.messages[0].Ai? && u.messages[0].name == "Tester"
    ensures u.nextAgent == Set("manager")
    ensures u.iterationCount.Keep? && u.finalResponse.Keep? && u.status.Keep?
    ensures u.task.Keep? && u.baResult.Keep? && u.devResult.Keep? && u.clarifyingQuestions.Keep?
    // nothing to review: only a message
    ensures |ReviewRefs(s.artifacts)| == 0 ==> u == Say("Tester", u.messages[0].content, "manager")
    // an exception records its text but leaves the status alone
    ensures |ReviewRefs(s.artifacts)| > 0 && o.TesterRaised? ==>
      u.errorMessage == Set(Some(o.msg)) && u.testerResult.Keep? && u.artifacts.Keep?
    // a plan is stored and its test files join the artifacts
    ensures |ReviewRefs(s.artifacts)| > 0 && o.TesterReturned? ==>
      u.testerResult == Set(Some(o.plan)) && u.errorMessage.Keep?
      && u.artifacts.Set? && s.artifacts <= u.artifacts.value
      && (forall x :: x in u.artifacts.value <==> x in s.artifacts || x in TestPaths(o.plan.tests))
  {
    if |s.artifacts| == 0 then
      Say("Tester", "Tester: No artifacts to review.", "manager")
    else if |ReviewRefs(s.artifacts)| == 0 then
      Say("Tester", "Tester: No valid artifacts to review.", "manager")
    else
      match o
      case TesterRaised(e) =>
        Say("Tester", "Tester Review Exception: " + e, "manager").(errorMessage := Set(Some(e)))
      case TesterReturned(p) =>
        var files := TestPaths(p.tests);
        Say("Tester", TesterText(files, Concerns(p)), "manager")
          .(testerResult := Set(Some(p)), artifacts := Set(s.artifacts + set x | x in files))
  }

  /** Which message the Tester leaves when there is nothing to review. */
  lemma TesterNothingToReview(s: TeamState, o: TesterOutcome)
    requires |ReviewRefs(s.artifacts)| == 0
    ensures |s.artifacts| == 0 ==> TesterUpdate(s, o).messages == [Ai("Tester", "Tester: No artifacts to review.")]
    ensures |s.artifacts| > 0 ==>
      TesterUpdate(s, o).messages == [Ai("Tester", "Tester: No valid artifacts to review.")]
      && forall a :: a in s.artifacts ==> StartsWith(a, ErrorPrefix)
  {
  }
}
