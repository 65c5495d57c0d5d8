/** The Dev agent: prompt text from stories and context, the per-file write
    loop, and the assembly of an implementation result. The model call and
    the workspace write tool enter as parameters. */
module Developer {
  import opened Wrappers
  import opened Text
  import opened Schemas

  // ---------------------------------------------------------------------------
  // Prompt text
  // ---------------------------------------------------------------------------

  const NoStoriesText := "No user stories provided."
  const NoContextText := "No additional context provided."

  /** The lines describing one story, numbered `i`. */
  function StoryLines(i: nat, s: UserStory): (r: seq<string>)
    ensures |r| == 5 + (if |s.acceptanceCriteria| > 0 then 1 + |s.acceptanceCriteria| else 0)
    ensures r[0] == "User Story " + NatToString(i) + ":"
    ensures r[1] == "  ID: " + s.id && r[2] == "  Title: " + s.title
    ensures r[3] == "  Description: " + s.description
    ensures r[|r| - 1] == ""
  {
    var criteria := seq(|s.acceptanceCriteria|, k requires 0 <= k < |s.acceptanceCriteria| =>
                          "    - " + s.acceptanceCriteria[k]);
    ["User Story " + NatToString(i) + ":", "  ID: " + s.id, "  Title: " + s.title,
     "  Description: " + s.description]
    + (if |s.acceptanceCriteria| > 0 then ["  Acceptance Criteria:"] + criteria else [])
    + [""]
  }

  /** The lines of all stories, numbered from `start`. */
  function AllStoryLines(stories: seq<UserStory>, start: nat): (r: seq<string>)
    ensures |stories| > 0 ==> |r| > 0 && r[0] == "User Story " + NatToString(start) + ":"
    decreases |stories|
  {
    if |stories| == 0 then [] else StoryLines(start, stories[0]) + AllStoryLines(stories[1..], start + 1)
  }

  /** The stories as prompt text; a missing or empty list gives a fixed line. */
  function FormatUserStories(stories: Option<seq<UserStory>>): (r: string)
    ensures stories.None? || |stories.value| == 0 ==> r == NoStoriesText
    ensures stories.Some? && |stories.value| > 0 ==> StartsWith(r, "User Story 1:")
  {
    if stories.None? || |stories.value| == 0 then NoStoriesText
    else
      var lines := AllStoryLines(stories.value, 1);
      JoinStartsWithFirst(lines, "\n");
      Join(lines, "\n")
  }

  /** Every line of story `k` is among the lines of the stories. */
  lemma {:induction false} StoryLinesListed(stories: seq<UserStory>, start: nat, k: nat, j: nat)
    requires k < |stories| && j < |StoryLines(start + k, stories[k])|
    ensures StoryLines(start + k, stories[k])[j] in AllStoryLines(stories, start)
    decreases k
  {
    var here := StoryLines(start, stories[0]);
    assert AllStoryLines(stories, start) == here + AllStoryLines(stories[1..], start + 1);
    if k > 0 {
      assert stories[1..][k - 1] == stories[k];
      StoryLinesListed(stories[1..], start + 1, k - 1, j);
    } else {
      assert here[j] in AllStoryLines(stories, start);
    }
  }

  /** A line of the list occurs in the joined text. */
  lemma LineInJoin(lines: seq<string>, x: string, sep: string)
    requires x in lines
    ensures Contains(Join(lines, sep), x)
  {
    var j :| 0 <= j < |lines| && lines[j] == x;
    JoinContainsPart(lines, sep, j);
  }

  /** Every story's identifier, title and description reach the prompt. */
  lemma StoryInText(stories: seq<UserStory>, k: nat)
    requires k < |stories|
    ensures var text := FormatUserStories(Some(stories));
      && Contains(text, "  ID: " + stories[k].id)
      && Contains(text, "  Title: " + stories[k].title)
      && Contains(text, "  Description: " + stories[k].description)
  {
    var lines := AllStoryLines(stories, 1);
    StoryLinesListed(stories, 1, k, 1);
    StoryLinesListed(stories, 1, k, 2);
    StoryLinesListed(stories, 1, k, 3);
    LineInJoin(lines, "  ID: " + stories[k].id, "\n");
    LineInJoin(lines, "  Title: " + stories[k].title, "\n");
    LineInJoin(lines, "  Description: " + stories[k].description, "\n");
  }

  /** The lines of the context entries, numbered from `start`. */
  function ContextLines(context: seq<string>, start: nat): (r: seq<string>)
    ensures |r| == 3 * |context|
    decreases |context|
  {
    if |context| == 0 then []
    else ["Context " + NatToString(start) + ":", context[0], ""] + ContextLines(context[1..], start + 1)
  }

  /** Entry `k` is numbered, given verbatim, and followed by an empty line. */
  lemma {:induction false} ContextLineAt(context: seq<string>, start: nat, k: nat)
    requires k < |context|
    ensures var r := ContextLines(context, start);
      && r[3 * k] == "Context " + NatToString(start + k) + ":"
      && r[3 * k + 1] == context[k]
      && r[3 * k + 2] == ""
    decreases k
  {
    if k > 0 {
      var rest := ContextLines(context[1..], start + 1);
      var r := ContextLines(context, start);
      assert r == ["Context " + NatToString(start) + ":", context[0], ""] + rest;
      assert r[3 * k] == rest[3 * (k - 1)];
      assert r[3 * k + 1] == rest[3 * (k - 1) + 1];
      assert r[3 * k + 2] == rest[3 * (k - 1) + 2];
      assert context[1..][k - 1] == context[k];
      ContextLineAt(context[1..], start + 1, k - 1);
      assert start + 1 + (k - 1) == start + k;
    }
  }

  /** The extra context as prompt text; a missing or empty list gives a
      fixed line. */
  function FormatContext(context: Option<seq<string>>): (r: string)
    ensures context.None? || |context.value| == 0 ==> r == NoContextText
    ensures context.Some? && |context.value| > 0 ==> StartsWith(r, "Context 1:")
  {
    if context.None? || |context.value| == 0 then NoContextText
    else
      var lines := ContextLines(context.value, 1);
      JoinStartsWithFirst(lines, "\n");
      Join(lines, "\n")
  }

  /** Every context entry reaches the prompt verbatim. */
  lemma ContextInText(context: seq<string>, k: nat)
    requires k < |context|
    ensures Contains(FormatContext(Some(context)), context[k])
  {
    var lines := ContextLines(context, 1);
    ContextLineAt(context, 1, k);
    JoinContainsPart(lines, "\n", 3 * k + 1);
  }

  /** The request that closes the prompt. */
  const GenerateRequest := "Generate a complete implementation following the required JSON schema with plan, files, and explanations."

  /** The `Task`'s title, identifier and description, as the prompt opens. */
  function PromptHead(title: string, id: string, description: string): string {
    "Task: " + title + "\nTask ID: " + id + "\n\nDescription:\n" + description + "\n\n"
  }

  /** The prompt sent to the model: the stories text and the context text
      both reach it, and it ends with the request for a structured answer. */
  function DevPrompt(title: string, id: string, description: string,
                     storiesText: string, contextText: string): (r: string)
    ensures Contains(r, storiesText) && Contains(r, contextText)
    ensures EndsWith(r, GenerateRequest)
  {
    PromptPieces(PromptHead(title, id, description), storiesText, contextText);
    PromptHead(title, id, description) + storiesText + "\n\n" + contextText + "\n\n" + GenerateRequest
  }

  lemma PromptPieces(head: string, storiesText: string, contextText: string)
    ensures var p := head + storiesText + "\n\n" + contextText + "\n\n" + GenerateRequest;
      Contains(p, storiesText) && Contains(p, contextText) && EndsWith(p, GenerateRequest)
  {
    var hs := head + storiesText;
    var hsc := hs + "\n\n" + contextText;
    ContainsRight(head, storiesText);
    ContainsExtend(hs, "\n\n", storiesText);
    ContainsExtend(hs + "\n\n", contextText, storiesText);
    ContainsRight(hs + "\n\n", contextText);
    ContainsExtend(hsc, "\n\n", storiesText);
    ContainsExtend(hsc, "\n\n", contextText);
    ContainsExtend(hsc + "\n\n", GenerateRequest, storiesText);
    ContainsExtend(hsc + "\n\n", GenerateRequest, contextText);
    var p := hsc + "\n\n" + GenerateRequest;
    assert p[|p| - |GenerateRequest|..] == GenerateRequest;
  }

  // ---------------------------------------------------------------------------
  // Writing the generated files
  // ---------------------------------------------------------------------------

  /** What the workspace write tool hands back for one file: a dict with
      its `success` flag, its `message` if it has one and its text form;
      some other value, by its text form; or an exception, by its text. */
  datatype WriteReply =
    | DictReply(success: bool, message: Option<string>, text: string)
    | OtherReply(text: string)
    | WriteRaised(text: string)

  /** The write tool: path, content, project id and dry-run flag. */
  type Writer = (string, string, string, bool) -> WriteReply

  /** The text of the `KeyError` raised when a successful dict has no message. */
  const MissingMessageText := "'message'"

  function ErrorEntry(path: string, msg: string): string {
    "[ERROR] " + path + ": " + msg
  }

  /** The entry one file contributes: the message of a successful dict, or
      an error line naming the file. */
  function WriteEntry(path: string, reply: WriteReply): (r: string)
    ensures reply.DictReply? && reply.success && reply.message.Some? ==> r == reply.message.value
    ensures !(reply.DictReply? && reply.success && reply.message.Some?) ==>
      StartsWith(r, "[ERROR] " + path + ": ")
  {
    match reply
    case DictReply(ok, msg, text) =>
      if ok then
        (match msg case Some(m) => m case None => ErrorEntry(path, MissingMessageText))
      else ErrorEntry(path, msg.GetOr(text))
    case OtherReply(text) => ErrorEntry(path, text)
    case WriteRaised(text) => ErrorEntry(path, text)
  }

  /** One entry per file, in file order. */
  function WriteEntries(files: seq<GeneratedFile>, pid: string, dryRun: bool, writer: Writer): (r: seq<string>)
    ensures |r| == |files|
    ensures forall i :: 0 <= i < |files| ==>
      r[i] == WriteEntry(files[i].path, writer(files[i].path, files[i].content, pid, dryRun))
  {
    seq(|files|, i requires 0 <= i < |files| =>
      WriteEntry(files[i].path, writer(files[i].path, files[i].content, pid, dryRun)))
  }

  /** The write loop: every file is handed to the write tool, and a failure
      is recorded and passed over. */
  method WriteFilesToWorkspace(files: seq<GeneratedFile>, projectId: Option<string>, dryRun: bool,
                               writer: Writer)
    returns (written: seq<string>)
    ensures written == WriteEntries(files, ProjectFor(projectId), dryRun, writer)
  {
    written := [];
    var pid := ProjectFor(projectId);
    var i := 0;
    while i < |files|
      invariant 0 <= i <= |files|
      invariant |written| == i
      invariant forall k :: 0 <= k < i ==>
        written[k] == WriteEntry(files[k].path, writer(files[k].path, files[k].content, pid, dryRun))
    {
      var reply := writer(files[i].path, files[i].content, pid, dryRun);
      written := written + [WriteEntry(files[i].path, reply)];
      i := i + 1;
    }
  }

  /** A file whose write fails yields an error line naming it, and the
      files after it are still written. */
  lemma FailedWriteRecorded(files: seq<GeneratedFile>, pid: string, dryRun: bool, writer: Writer, i: nat)
    requires i < |files|
    requires writer(files[i].path, files[i].content, pid, dryRun).WriteRaised?
    ensures StartsWith(WriteEntries(files, pid, dryRun, writer)[i], "[ERROR] " + files[i].path + ": ")
    ensures forall k :: i < k < |files| ==>
      WriteEntries(files, pid, dryRun, writer)[k]
        == WriteEntry(files[k].path, writer(files[k].path, files[k].content, pid, dryRun))
  {
  }

  // ---------------------------------------------------------------------------
  // Diffs
  // ---------------------------------------------------------------------------

  /** The diff line of a file: its length in characters. */
  function DiffLine(f: GeneratedFile): string {
    "+ " + NatToString(|f.content|) + " bytes"
  }

  function FilePaths(files: seq<GeneratedFile>): set<string> {
    set i | 0 <= i < |files| :: files[i].path
  }

  lemma FilePathsSnoc(files: seq<GeneratedFile>)
    requires |files| > 0
    ensures FilePaths(files) == FilePaths(files[..|files| - 1]) + {files[|files| - 1].path}
  {
    var prefix := files[..|files| - 1];
    forall x | x in FilePaths(files)
      ensures x in FilePaths(prefix) + {files[|files| - 1].path}
    {
      var i :| 0 <= i < |files| && files[i].path == x;
      if i < |prefix| {
        assert prefix[i] == files[i];
      }
    }
    forall x | x in FilePaths(prefix)
      ensures x in FilePaths(files)
    {
      var i :| 0 <= i < |prefix| && prefix[i].path == x;
      assert files[i] == prefix[i];
    }
  }

  /** The diffs keyed by path; a later file with the same path wins. */
  function Diffs(files: seq<GeneratedFile>): (r: map<string, string>)
    ensures r.Keys == FilePaths(files)
    decreases |files|
  {
    if |files| == 0 then map[]
    else
      var last := files[|files| - 1];
      FilePathsSnoc(files);
      Diffs(files[..|files| - 1])[last.path := DiffLine(last)]
  }

  /** A path's diff is the line of the last file with that path. */
  lemma {:induction false} DiffOfLastFile(files: seq<GeneratedFile>, i: nat)
    requires i < |files|
    requires forall j :: i < j < |files| ==> files[j].path != files[i].path
    ensures Diffs(files)[files[i].path] == DiffLine(files[i])
    decreases |files|
  {
    if i < |files| - 1 {
      var prefix := files[..|files| - 1];
      assert prefix[i] == files[i];
      DiffOfLastFile(prefix, i);
    }
  }

  /** The diff loop. */
  method BuildDiffs(files: seq<GeneratedFile>) returns (diffs: map<string, string>)
    ensures diffs == Diffs(files)
  {
    diffs := map[];
    var i := 0;
    while i < |files|
      invariant 0 <= i <= |files|
      invariant diffs == Diffs(files[..i])
    {
      assert files[..i + 1][..i] == files[..i];
      diffs := diffs[files[i].path := DiffLine(files[i])];
      i := i + 1;
    }
    assert files[..|files|] == files;
  }

  // ---------------------------------------------------------------------------
  // Implementation
  // ---------------------------------------------------------------------------

  const NoKeyError := "OPENROUTER_API_KEY not configured"
  const NoPlanError := "No implementation plan generated"
  const NoFilesError := "No files generated"

  function LlmError(e: string): string {
    "LLM structured output call failed: " + e
  }

  /** The context list the prompt is built from: the `Task`'s own entries,
      then the extra ones. */
  function MergedContext(taskContext: Option<seq<string>>, extra: Option<seq<string>>): seq<string> {
    (if taskContext.Some? then taskContext.value else []) + (if extra.Some? then extra.value else [])
  }

  /** The `Task`'s context after the merge. The extra entries are appended to
      the `Task`'s own list only when that list is non-empty: an empty one is
      replaced by a fresh list and left as it was. */
  function ContextAfter(taskContext: Option<seq<string>>, extra: Option<seq<string>>): (r: Option<seq<string>>)
    ensures r.Some? <==> taskContext.Some?
    ensures r != taskContext ==> r == Some(MergedContext(taskContext, extra))
    ensures taskContext.Some? && |taskContext.value| > 0 ==> r == Some(MergedContext(taskContext, extra))
  {
    if taskContext.Some? && |taskContext.value| > 0 && extra.Some? && |extra.value| > 0 then
      Some(taskContext.value + extra.value)
    else
      assert taskContext.Some? ==> taskContext.value + [] == taskContext.value;
      taskContext
  }

  /** The files the static check looks at: those whose path ends in ".py",
      in their order. */
  function PythonFiles(files: seq<GeneratedFile>): (r: seq<GeneratedFile>)
    ensures forall f :: f in r <==> f in files && EndsWith(f.path, ".py")
    ensures |r| <= |files|
    decreases |files|
  {
    if |files| == 0 then []
    else
      var rest := PythonFiles(files[1..]);
      assert forall f :: f in files <==> f == files[0] || f in files[1..];
      if EndsWith(files[0].path, ".py") then [files[0]] + rest else rest
  }

  /** What the static check raises once it has Python files to check, or
      `None` when it returns its report. It writes each file below a scratch
      directory, making the directories first, and compiles it; a failing
      `makedirs` or `open`, or a compile error other than `SyntaxError`,
      escapes. */
  type StaticCheck = seq<GeneratedFile> -> Option<string>

  /** The static check on a reply's files: with no Python file it returns
      at once and raises nothing. */
  function StaticRaise(files: seq<GeneratedFile>, check: StaticCheck): (e: Option<string>)
    ensures e.Some? ==> exists f :: f in files && EndsWith(f.path, ".py")
    ensures e.Some? ==> e == check(PythonFiles(files))
  {
    var py := PythonFiles(files);
    if |py| == 0 then None
    else
      assert py[0] in py;
      check(py)
  }

  /** The outcome once the model has answered: `Failure(e)` when the static
      check raises `e`, which escapes; otherwise the result, a success
      exactly when the model answered with a plan and at least one file. */
  function Implementation(reply: Result<DevResponse, string>, check: StaticCheck, dryRun: bool,
                          explainChanges: bool, pid: string, writer: Writer)
    : (r: Result<ImplementationResult, string>)
    ensures r.Failure? <==>
      reply.Success? && |reply.value.plan| > 0 && |reply.value.files| > 0
      && StaticRaise(reply.value.files, check).Some?
    ensures r.Failure? ==> exists f :: f in reply.value.files && EndsWith(f.path, ".py")
    ensures r.Success? ==>
      (r.value.success <==> reply.Success? && |reply.value.plan| > 0 && |reply.value.files| > 0)
    ensures r.Success? && !r.value.success ==> r.value.error.Some? && r.value.createdFiles == []
  {
    match reply
    case Failure(e) => Success(FailedImplementation(LlmError(e)))
    case Success(d) =>
      if |d.plan| == 0 then Success(FailedImplementation(NoPlanError))
      else if |d.files| == 0 then Success(FailedImplementation(NoFilesError))
      else match StaticRaise(d.files, check)
        case Some(e) => Failure(e)
        case None =>
          Success(ImplementationResult(true, d.plan, d.files, if explainChanges then d.explanations else map[],
                                       WriteEntries(d.files, pid, dryRun, writer), None, Some(Diffs(d.files))))
  }

  /** The failures, in the order they are checked: a model failure, an
      empty plan, no files, then the static check raising; success exactly
      otherwise. */
  lemma ImplementationFailures(reply: Result<DevResponse, string>, check: StaticCheck, dryRun: bool,
                               explainChanges: bool, pid: string, writer: Writer)
    ensures var r := Implementation(reply, check, dryRun, explainChanges, pid, writer);
      && (reply.Failure? ==> r == Success(FailedImplementation(LlmError(reply.error))))
      && (reply.Success? && |reply.value.plan| == 0 ==> r == Success(FailedImplementation(NoPlanError)))
      && (reply.Success? && |reply.value.plan| > 0 && |reply.value.files| == 0 ==>
            r == Success(FailedImplementation(NoFilesError)))
      && (reply.Success? && |reply.value.plan| > 0 && |reply.value.files| > 0 ==>
            match StaticRaise(reply.value.files, check)
            case Some(e) => r == Failure(e)
            case None => r.Success? && r.value.success)
  {
  }

  /** A success carries the plan and files, one write entry per file, one
      diff per distinct path, and no explanations unless asked for. */
  lemma ImplementationSuccess(reply: Result<DevResponse, string>, check: StaticCheck, dryRun: bool,
                              explainChanges: bool, pid: string, writer: Writer)
    requires Implementation(reply, check, dryRun, explainChanges, pid, writer).Success?
    requires Implementation(reply, check, dryRun, explainChanges, pid, writer).value.success
    ensures var r := Implementation(reply, check, dryRun, explainChanges, pid, writer).value;
      && r.plan == reply.value.plan && r.files == reply.value.files
      && |r.createdFiles| == |r.files|
      && r.diffs.Some? && r.diffs.value.Keys == FilePaths(r.files)
      && (forall p :: p in r.diffs.value ==> StartsWith(r.diffs.value[p], "+ "))
      && r.explanations == (if explainChanges then reply.value.explanations else map[])
      && r.error.None?
  {
    var d := reply.value;
    forall p | p in Diffs(d.files)
      ensures StartsWith(Diffs(d.files)[p], "+ ")
    {
      var i :| 0 <= i < |d.files| && d.files[i].path == p;
      var j := LastWithPath(d.files, p, i);
      DiffOfLastFile(d.files, j);
    }
  }

  /** The last file with a given path. */
  lemma {:induction false} LastWithPath(files: seq<GeneratedFile>, p: string, i: nat) returns (j: nat)
    requires i < |files| && files[i].path == p
    ensures i <= j < |files| && files[j].path == p
    ensures forall k :: j < k < |files| ==> files[k].path != files[j].path
    decreases |files| - i
  {
    if exists k :: i < k < |files| && files[k].path == p {
      var k :| i < k < |files| && files[k].path == p;
      j := LastWithPath(files, p, k);
    } else {
      j := i;
    }
  }

  /** The prompt for a task with the given fields and extra context: it
      carries the formatted stories and the formatted merged context. */
  function TaskPrompt(title: string, id: string, description: string,
                      stories: Option<seq<UserStory>>, taskContext: Option<seq<string>>,
                      extra: Option<seq<string>>): (r: string)
    ensures Contains(r, FormatUserStories(stories))
    ensures Contains(r, FormatContext(Some(MergedContext(taskContext, extra))))
  {
    DevPrompt(title, id, description, FormatUserStories(stories),
              FormatContext(Some(MergedContext(taskContext, extra))))
  }

  /** Checking the model's answer, running the static check, writing the
      files and building the diffs. */
  method Respond(reply: Result<DevResponse, string>, check: StaticCheck, dryRun: bool,
                 explainChanges: bool, projectId: Option<string>, writer: Writer)
    returns (r: Result<ImplementationResult, string>)
    ensures r == Implementation(reply, check, dryRun, explainChanges, ProjectFor(projectId), writer)
  {
    if reply.Failure? {
      return Success(FailedImplementation(LlmError(reply.error)));
    }
    var d := reply.value;
    if |d.plan| == 0 {
      return Success(FailedImplementation(NoPlanError));
    }
    if |d.files| == 0 {
      return Success(FailedImplementation(NoFilesError));
    }
    var raised := StaticRaise(d.files, check);
    if raised.Some? {
      return Failure(raised.value);
    }
    var created := WriteFilesToWorkspace(d.files, projectId, dryRun, writer);
    var diffs := BuildDiffs(d.files);
    r := Success(ImplementationResult(true, d.plan, d.files, if explainChanges then d.explanations else map[],
                                      created, None, Some(diffs)));
  }

  /** Generating an implementation for a task. Without an API key nothing
      else happens. Otherwise the context is merged (appending in place to
      a non-empty task context), the prompt is built and sent, and the
      answer is checked, statically checked, written and summarised; an
      exception the static check raises escapes as `Failure`. */
  method GenerateImplementation(task: Task, context: Option<seq<string>>, dryRun: bool,
                                explainChanges: bool, hasKey: bool,
                                llm: string -> Result<DevResponse, string>, check: StaticCheck,
                                writer: Writer)
    returns (r: Result<ImplementationResult, string>)
    modifies task
    ensures task.id == old(task.id) && task.title == old(task.title)
    ensures task.description == old(task.description) && task.status == old(task.status)
    ensures task.projectId == old(task.projectId) && task.userStories == old(task.userStories)
    ensures task.artifacts == old(task.artifacts)
    ensures !hasKey ==> task.context == old(task.context) && r == Success(FailedImplementation(NoKeyError))
    ensures hasKey ==> task.context == ContextAfter(old(task.context), context)
    ensures hasKey ==>
      r == Implementation(llm(TaskPrompt(task.title, task.id, task.description, task.userStories,
                                         old(task.context), context)),
                          check, dryRun, explainChanges, ProjectFor(task.projectId), writer)
  {
    if !hasKey {
      return Success(FailedImplementation(NoKeyError));
    }
    var prompt := TaskPrompt(task.title, task.id, task.description, task.userStories, task.context, context);
    if task.context.Some? && |task.context.value| > 0 && context.Some? && |context.value| > 0 {
      task.context := Some(task.context.value + context.value);
    }
    r := Respond(llm(prompt), check, dryRun, explainChanges, task.projectId, writer);
  }
}
