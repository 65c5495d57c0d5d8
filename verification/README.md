# AI dev team orchestration, modelled in Dafny

This project models the orchestration core of a multi-agent "AI dev team" service. A
Manager (supervisor) node and three worker nodes share one `TeamState` record:

- BA, a business analyst that turns a request into user stories or clarifying questions;
- Dev, a developer that generates and writes code files;
- Tester, which reviews code and generates tests.

The graph runs START → Manager. The Manager routes to a worker or to END. Every worker hands
control back to the Manager. Each node returns a partial update. The update's `messages` are
appended to the log; every other field it carries overwrites the old value.

The model also covers the pure helpers the nodes rely on:

- BA request validation, whitespace canonicalisation and code-fence extraction;
- Dev prompt formatting, per-file write reporting and result assembly;
- Tester source collection, filtering and project discovery;
- the test runner's syntax gate, static checks, coverage heuristic and pytest summary parsing;
- workspace path validation and the size/dry-run rules of the write tools;
- recursive redaction of logged data;
- the HTTP error-handling middleware's mapping from exceptions to JSON bodies.

The outside world enters only as parameters. These are:

- whether an API key is configured;
- the routing model's answer for each Manager turn;
- each specialist's outcome for each worker turn;
- file reads, the disk's answer to each write (done, or an OS error such as `IsADirectoryError`), the path resolver, the compiler, the checksum, what the Dev static check raises and the sandboxed pytest run.

Each source file becomes one module: `State`, `Schemas`, `Manager`, `Workers`, `Team`, `Ba`,
`Developer`, `Tester`, `TestRunner`, `LoggingConfig`, `FileTools`, `BaTools` and
`ErrorHandler`. `Text` holds the Python `str` operations they share, and `Wrappers` holds
`Option`/`Result`.

- The manager, BA, state and logging code only branch on values, so they are functions and lemmas.
- Dev and BA change the shared `Task` object in place, so `Schemas.Task` is a class. `Workers.DevNode`, `Workers.BaNode` and `Developer.GenerateImplementation` are methods with `modifies` clauses.
- The graph is built by successive `add_node`/`add_edge` calls on a `Team.StateGraph` object.
- `Team.RunFrom` is the run as the graph defines it, with no step limit. The properties of a whole run are lemmas about `RunFrom`.
- The graph runtime executes one node per super-step. `Team.Drive` is that loop, bounded by the runtime's default limit of 25 steps, since the graph is compiled and invoked without a configuration (app/agents/team.py:118, app/agents/team.py:180). `Team.RunTeamWorkflow` is proved to reach `RunFrom`'s final state exactly when that run takes at most 25 steps; otherwise the runtime raises `GraphRecursionError`, modelled as `None`.

Where the code and its own documentation disagree, the model follows the code:

- A workflow that failed finishes with status `"completed"`, not `"failed"`. The Manager's failed branch writes `"completed"` (app/agents/manager.py:124-125). No run therefore ends in `"failed"` (`Team.RunProps`).
- A run with `max_iterations = N` can take `N + 1` Manager turns, not `N`. The cap check comes first, and the last turn is the one that meets the cap.
- A Tester exception sets `error_message` but not `status` (app/agents/workers.py:404-415). A BA error writes `next_agent = "FINISH"`, which the static BA → Manager edge overrides.
- Extra context is appended in place to `task.context` only when both lists are non-empty (app/agents/developer.py:235-237). A `None` or empty task context gets a fresh merged list that is not stored back.
- The iteration cap does not bound a run on its own. A run with k worker turns takes 2k + 1 steps, so any run of more than 12 worker turns meets the runtime's recursion limit before the cap. With `max_iterations = 20` and a Tester that never stores a plan, the run raises instead of finishing (`Team.TesterStallHitsLimit`). Caps up to 12 always fit (`Team.DefaultCapFitsLimit`).
- `write_file` does not catch the errors of the disk write (app/tools/file_tools.py:135). A path of "" or "." resolves to the project root itself, and writing to it raises `IsADirectoryError`. The BA document tool catches only `FileToolError`, so the same error escapes it too (app/tools/ba_tools.py:146-159).
- Workspace paths are pathlib's pure paths (`FileTools.PurePath`): `WORKSPACE_ROOT / project_id` drops `.` and empty components, so project `./p` is the directory `p` (`FileTools.DotProjectIdRoot`), and `relative_to` compares whole components.
- The Dev static check runs before any file is written and outside any `try` (app/agents/developer.py:294). Whatever it raises, such as the `FileExistsError` of files `a.py` and `a.py/b.py`, escapes `generate_implementation`, and the Dev node reports it as an exception.
- In the sandboxed test run, a `FileNotFoundError` raised while the test files are written is reported as "pytest not found" (app/agents/test_runner.py:297-304).

## Model

| member | source | states |
|---|---|---|
| State.Merge | app/models/state.py:31-102 | a field absent from an update keeps the old value; a present one overwrites it |
| State.Apply | app/models/state.py:17-102 | merging an update appends its messages, keeps the request, project and cap, and keeps count, artifacts and status unless the update sets them |
| State.ApplyNoChange | app/models/state.py:17-102 | the empty update leaves the state as it was |
| State.ApplyCompose | app/models/state.py:40-44 | applying two updates in turn equals applying their composition (messages concatenated, later fields win) |
| State.MessagesAppend | app/models/state.py:40-44 | the merged log is the old log followed by the update's messages in order, so it never shrinks |
| Schemas.ProjectFor | app/agents/developer.py:172 | the workspace project is never empty and is the given id when that is non-empty (`project_id or "default"`) |
| Schemas.Task.constructor | app/models/schemas.py:211-245 | a new task has the given id, title, description, project and status, and no stories, context or artifacts |
| LoggingConfig.SanitizeValue | app/logging_config.py:194-202 | scalars are kept; dicts stay dicts with the same keys; lists stay lists of the same length |
| LoggingConfig.SanitizeSensitiveData | app/logging_config.py:189-203 | same key set as the input; a sensitive key's value becomes "[REDACTED]"; other values are sanitised recursively and scalars are kept |
| LoggingConfig.ListElements | app/logging_config.py:196-200 | in a list, a dict element is sanitised and every other element is kept unchanged |
| LoggingConfig.SanitizeValueIdempotent | app/logging_config.py:189-204 | sanitising a value twice equals sanitising it once |
| LoggingConfig.SanitizeIdempotent | app/logging_config.py:189-204 | redacting a dict twice equals redacting it once |
| LoggingConfig.SanitizedValueIsClean | app/logging_config.py:190-200 | after sanitising, every sensitive key reached through dicts and lists of dicts holds "[REDACTED]" |
| LoggingConfig.SanitizedFieldIsClean | app/logging_config.py:194-200 | a sanitised field value is clean in the same sense |
| LoggingConfig.SanitizedIsClean | app/logging_config.py:189-204 | the sanitised dict is clean |
| LoggingConfig.IsSensitiveKey | app/logging_config.py:176-192 | a sensitive key is at least four characters long, the shortest listed substring |
| LoggingConfig.SensitiveByPrefix | app/logging_config.py:191-192 | a key whose lower-case form starts with a listed substring is sensitive |
| LoggingConfig.SessionIdIsSensitive | app/logging_config.py:176-193 | "session_id" is a sensitive key |
| LoggingConfig.AuthorizationIsSensitive | app/logging_config.py:183-192 | any spelling that lower-cases to "authorization" is sensitive |
| LoggingConfig.NestedListIsKept | app/logging_config.py:196-200 | a list nested directly in a list is not looked into, so dicts inside it keep their sensitive fields |
| ErrorHandler.BuildErrorBody | app/middleware/error_handler.py:22-48 | the body holds type, message and status code, and holds the request id exactly when one is present and non-empty |
| ErrorHandler.Dispatch | app/middleware/error_handler.py:54-119 | a response passes through unchanged; an HTTP error keeps its status and detail as "http_error"; a validation error is 422 "validation_error" with "Validation failed with N error(s)"; anything else is 500 "internal_error" with the fixed message |
| ErrorHandler.CrashTextHidden | app/middleware/error_handler.py:104-119 | the answer to an unexpected exception does not depend on its text |
| ErrorHandler.EmptyRequestIdOmitted | app/middleware/error_handler.py:46-47 | an empty request id is treated as an absent one |
| FileTools.JoinPath | app/tools/file_tools.py:30-32 | pathlib's `/`: an absolute right-hand side replaces the left; a relative one lies under the left with its components added; a well-formed left side gives a well-formed path |
| FileTools.AnchorOf | app/tools/file_tools.py:26-27 | a path text has an anchor exactly when `os.path.isabs` holds for it |
| FileTools.Components | app/tools/file_tools.py:30 | the components pathlib keeps are all proper: not empty, not ".", without a separator |
| FileTools.Parse | app/tools/file_tools.py:30-32 | `PurePosixPath(s)` is well-formed and anchored exactly when `s` is absolute |
| FileTools.ParseStr | app/tools/file_tools.py:30-39 | reading back the text of a well-formed path gives the path |
| FileTools.ProjectRoot | app/tools/file_tools.py:30 | the project directory is well-formed in a well-formed workspace, and lies under the workspace when the id is not absolute |
| FileTools.DotProjectIdRoot | app/tools/file_tools.py:30 | project `./p` of workspace `/w` is the directory `/w/p` |
| FileTools.FirstProtected | app/tools/file_tools.py:37-40 | finds the first protected name, in list order, whose resolved path prefixes the target, and none exactly when no name does |
| FileTools.ResolveAndValidate | app/tools/file_tools.py:24-41 | absolute paths are refused first, then any ".." component; a success is the resolved target, lies under the resolved project root and touches no protected name |
| FileTools.GitPrefixPath | app/tools/file_tools.py:37-40 | a name starting with ".git" joins to a path under the root whose text starts with that of the root's ".git" |
| FileTools.GitPrefixRefused | app/tools/file_tools.py:37-40 | so names such as ".gitignore" are refused as protected |
| FileTools.Utf8Length | app/tools/file_tools.py:130-131 | the UTF-8 length lies between one and four bytes per character |
| FileTools.Utf8LengthAscii | app/tools/file_tools.py:130-131 | ASCII text takes one byte per character |
| FileTools.RelativeTo | app/tools/file_tools.py:129 | a relative path exists exactly when the target lies under the base, comparing anchors and whole components; a path relative to itself is "." |
| FileTools.RelativeToRoundTrip | app/tools/file_tools.py:129 | joining the relative path back onto the base gives the target |
| FileTools.WriteFile | app/tools/file_tools.py:113-138 | content over 5 MiB is refused as a tool error before the disk is touched; a success reports the relative path, the UTF-8 size and the checksum; only a real (not dry-run) write reaches the disk, and it succeeds only when the disk accepts; a refused disk write is an OS error, never a tool error |
| FileTools.DryRunMatchesWrite | app/tools/file_tools.py:133-138 | a dry run writes nothing; when the real write succeeds the dry run reports the same; the two differ only when the disk refuses the real write, which then fails with an OS error |
| FileTools.AcceptingDiskMatchesDryRun | app/tools/file_tools.py:133-138 | on a disk that accepts every write, the dry run and the real write report the same |
| FileTools.NoLinksAlwaysRelative | app/tools/file_tools.py:128-129 | where paths are their own canonical form, a validated write never fails in `relative_to`, and its relative path joins back onto the project root to give the target |
| FileTools.UnderStartsWith | app/tools/file_tools.py:33-40 | a target that lies under a base other than "." has a text that starts with the base's text |
| BaTools.BaWriteRequirementDoc | app/tools/ba_tools.py:107-159 | the extension is checked first, with an error echoing the path; path-guard failures come back as error JSON; a success reports size, checksum and the dry-run flag; only a real write has an effect, and only when the disk accepts it; a disk error escapes as an OS error |
| BaTools.AgreesWithWriteFile | app/tools/ba_tools.py:139-157 | for an allowed document the tool succeeds, writes and reports exactly as the general write tool does; it raises exactly when the general tool fails with something other than a tool error, and with the same error |
| BaTools.PythonSourceRefused | app/tools/ba_tools.py:128-137 | a ".py" file is never an allowed requirement document |
| BaTools.UpperCaseMarkdownAllowed | app/tools/ba_tools.py:128-131 | a ".MD" file is allowed because extensions are compared in lower case |
| Ba.ValidateRequest | app/agents/ba.py:133-146 | valid exactly when non-empty and at most 10000 characters; the empty and too-long errors are the fixed messages |
| Ba.Collapse | app/agents/ba.py:128 | collapsing whitespace runs keeps every non-space character in order |
| Ba.CollapseSingleSpaced | app/agents/ba.py:128 | after collapsing, the only whitespace left is single spaces |
| Ba.CollapseSingleSpacedFixed | app/agents/ba.py:128 | collapsing text that is already single-spaced changes nothing |
| Ba.CanonicalizeWhitespace | app/agents/ba.py:125-130 | the result has no outer whitespace and only single spaces, and keeps all non-space characters in order |
| Ba.CanonicalizeIdempotent | app/agents/ba.py:125-130 | canonical text is a fixed point, so canonicalising twice equals once |
| Ba.WhitespaceOnlyRequest | app/agents/ba.py:140-146 | whitespace-only text passes validation but canonicalises to the empty string |
| Ba.ExtractFence | app/agents/ba.py:163-165 | the text taken from a fence occurs in the reply and contains no fence |
| Ba.UnfencedReply | app/agents/ba.py:162-168 | a reply without a fenced block is parsed as the stripped reply |
| Ba.WrappedExtract | app/agents/ba.py:163-165 | a body wrapped in a ```json fence is extracted exactly |
| Ba.FenceRoundTrip | app/agents/ba.py:162-168 | parsing a fenced, stripped body gives the body back |
| Ba.ParseBaResponse | app/agents/ba.py:149-176 | succeeds exactly when the decoder accepts the fence-extracted, stripped text, and then yields its value |
| Ba.RunBaAnalysis | app/agents/ba.py:179-254 | invalid input, then a missing key, then a failed call, then a failed parse give "error" before anything else; questions give "clarify" with them; otherwise "complete" with the stories |
| Ba.AnalysisSeesCanonicalText | app/agents/ba.py:206-232 | the analysis depends on the model only through its answer to the canonicalised text |
| Ba.AnalysisIgnoresSpacing | app/agents/ba.py:202-232 | two valid requests with the same canonical form get the same analysis |
| Manager.AgentName | app/agents/manager.py:453-464 | every agent names a valid route, and only Finish names "FINISH" |
| Manager.FailureText | app/agents/manager.py:318-320 | starts with "Something went wrong: " and contains the error message, or ends with "None" when there is none |
| Manager.ClarifyText | app/agents/manager.py:311-315 | starts with the clarification header and a blank line |
| Manager.BuildSimpleResponse | app/agents/manager.py:393-428 | the numbered questions when waiting with questions; then the failure text when failed; otherwise "Workflow completed." exactly when no clause applies |
| Manager.GenerateFinalResponse | app/agents/manager.py:297-390 | the model's summary only with a key, an answer, and outside the clarification and failure paths; the simple response otherwise |
| Manager.FallbackChoice | app/agents/manager.py:453-464 | BA exactly when there is no BA result; Dev exactly when there is one but no successful Dev; Tester exactly when both but no Tester result; FINISH exactly when all three |
| Manager.FallbackRouting | app/agents/manager.py:431-496 | routes to the fallback choice with one Manager message and one more turn; FINISH completes with the simple response; a worker route leaves status and final response alone |
| Manager.FormatStateSummary | app/agents/manager.py:239-294 | starts with "User Request: " and contains every status line |
| Manager.CapTurn | app/agents/manager.py:102-117 | at the cap the Manager finishes, completed, without counting, announcing its final response |
| Manager.FailedTurn | app/agents/manager.py:120-127 | below the cap a failed workflow finishes silently, completed, with the failure text |
| Manager.WaitingTurn | app/agents/manager.py:130-142 | below the cap a workflow waiting for answers finishes, keeping its status, without counting |
| Manager.RoutingTurn | app/agents/manager.py:144-231 | past the guards every turn counts once and adds one Manager message; FINISH completes |
| Manager.NoKeyTurn | app/agents/manager.py:145-147 | past the guards, without a key, the turn is the fallback rule's |
| Manager.Numbered | app/agents/manager.py:314 | question i is rendered "<i+start>. <question>" |
| Manager.ManagerNode | app/agents/manager.py:77-231 | always a valid route; a worker route is taken only below the cap and counts one turn; no results, artifacts or questions are touched |
| Manager.Routed | app/agents/manager.py:144-231 | past the guards every turn counts once and adds one Manager message; FINISH exactly when a final response is set, and then status "completed" |
| Manager.ManagerNodeProps | app/agents/manager.py:102-147 | the cap wins and does not count; failed finishes silently with "Something went wrong", written as completed; clarification finishes keeping its status; routing turns count once; no key means the fallback |
| Manager.FallbackTable | app/agents/manager.py:448-496 | ba iff no BA result; dev iff BA but no successful Dev; tester iff both but no Tester result; FINISH otherwise, and then completed; always one more turn |
| Manager.FallbackDeterministic | app/agents/manager.py:448-469 | the fallback route, count and status depend only on which results exist and the count |
| Manager.FallbackErrorOnlyAnnotates | app/agents/manager.py:466-467 | an error leaves the route, count, status and final response as they are without it |
| Manager.NoteAppended | app/agents/manager.py:466-467 | the error note is appended at the end of the routing message |
| Manager.OracleErrorFallsBack | app/agents/manager.py:219-231 | when the routing call raises, the route is the keyless fallback's and the turn still counts |
| Manager.OracleErrorRoute | app/agents/manager.py:219-231 | a raised routing call gives the fallback route, unannotated for the unsupported-structured-output error |
| Manager.FinalResponseWithoutKey | app/agents/manager.py:361-363 | without a key the final response ignores the model and is the simple response |
| Manager.ClarifyPathsAgree | app/agents/manager.py:399-405 | the simple response's clarification text equals the final response's |
| Manager.ClarifyListsEachQuestion | app/agents/manager.py:311-315 | the clarification text lists every question, numbered from 1 |
| Manager.FailureResponse | app/agents/manager.py:318-320 | a failed workflow's final response is "Something went wrong: " and the error, and contains the error message |
| Manager.NoClauses | app/agents/manager.py:410-428 | no summary clause applies exactly when nothing was produced |
| Manager.ClausesAreNotCompleted | app/agents/manager.py:428 | joined clauses never read as "Workflow completed." |
| Manager.SimpleResponseClauses | app/agents/manager.py:410-428 | the simple response is "Workflow completed." exactly when nothing was produced |
| Manager.SimpleResponseAllClauses | app/agents/manager.py:410-428 | with every result present, the response lists the four clauses in fixed order, separated by single spaces |
| Manager.EscapeBraces | app/agents/manager.py:259 | escaping never shortens the title |
| Manager.UnescapeEscape | app/agents/manager.py:259 | the template engine reads the escaped title back as the title |
| Manager.SummaryProps | app/agents/manager.py:249-294 | the request is cut to 100 characters plus "..."; the BA title reads back intact; Dev is "Complete" exactly when it succeeded and "In progress" exactly when it did not but artifacts exist |
| Workers.Say | app/agents/workers.py:149-159 | a worker reply carries one message and the next agent, and nothing else |
| Workers.CreateTaskFromState | app/agents/workers.py:43-59 | a fresh task with the given id, the titled request, the request as description, the state's project and status "in_progress" |
| Workers.TaskTitleShape | app/agents/workers.py:55 | the title is "Task for: " + at most 50 leading characters of the request + "..." |
| Workers.BaUpdate | app/agents/workers.py:67-173 | one "BA" message; an exception or "error" fails with the error text (default "Unknown error"); "clarify" stores the result, questions and waiting status; "complete" stores the result, leaving status and error alone |
| Workers.BaNode | app/agents/workers.py:67-173 | returns the BA update, and copies the stories into an existing task exactly when the BA completed with a response |
| Workers.ValidFiles | app/agents/workers.py:239-241 | keeps exactly the created files that are not error reports |
| Workers.DevCore | app/agents/workers.py:212-283 | one "Dev" message; an exception or failure sets failed and the error (default "Implementation failed") without storing the result; a success stores it and unions the valid files into the artifacts |
| Workers.DevUpdate | app/agents/workers.py:256-267 | the Dev update, with the `Task` stored only on success |
| Workers.DevNode | app/agents/workers.py:181-283 | uses the state's task or creates one; copies BA stories and extends the description when BA produced stories; on success the `Task`'s artifacts are the valid files |
| Workers.CopyStories | app/agents/workers.py:202-207 | replaces the `Task`'s stories and appends the BA description when BA produced stories, and changes nothing else |
| Workers.DevAddsNoErrorReports | app/agents/workers.py:239-251 | an artifact Dev adds is never an error report |
| Workers.DevSuccessText | app/agents/workers.py:259 | starts with the count of valid files, names the first three, and ends with "..." when there are more |
| Workers.TesterText | app/agents/workers.py:386-390 | starts with "Tester Review Complete.", and is only that exactly when there are no test files and no issues |
| Workers.ReviewRefs | app/agents/workers.py:327-331 | the artifacts under review are exactly those that are not error reports |
| Workers.StoryLines | app/agents/workers.py:348-351 | one "  - title: description" line per story, in order |
| Workers.TesterContext | app/agents/workers.py:345-352 | context is given exactly when BA produced stories, and is the header and one line per story |
| Workers.TestPaths | app/agents/workers.py:366 | the generated test paths, one per test file, in order |
| Workers.TesterUpdate | app/agents/workers.py:304-415 | one "Tester" message and status untouched; nothing to review gives only the message; an exception sets only the error; a plan is stored and its test paths unioned into the artifacts |
| Workers.TesterNothingToReview | app/agents/workers.py:314-343 | with no reviewable artifacts the Tester only reports "No artifacts" or "No valid artifacts" |
| Team.StateGraph.constructor | app/agents/team.py:52 | a new graph has no nodes, edges or branches |
| Team.StateGraph.AddNode | app/agents/team.py:59-64 | adds the node and nothing else |
| Team.StateGraph.AddEdge | app/agents/team.py:72-74 | adds the edge and nothing else |
| Team.StateGraph.AddConditionalEdges | app/agents/team.py:94-103 | sets the node's routing map and nothing else |
| Team.ManagerPaths | app/agents/team.py:94-103 | routes ba, dev and tester to their nodes and FINISH to END, and nothing else |
| Team.BuildTeamGraph | app/agents/team.py:25-120 | the graph has the Manager and the three workers, the worker→Manager and START→Manager edges, and the Manager's routing map |
| Team.RouteFromManager | app/agents/team.py:80-103 | a valid routing value has a target in the path map, and only FINISH leads to END |
| Team.ManagerTurnHasTarget | app/agents/team.py:80-103 | after every Manager turn the conditional edge finds a target |
| Team.InitialState | app/agents/team.py:158-174 | nothing done yet, status "pending", the request as the only message, and `max_iterations` (or none, if not positive) Manager turns before the cap |
| Team.Budget | app/agents/manager.py:102 | the Manager turns left before the cap: none exactly when the count has reached it |
| Team.HubAndSpoke | app/agents/team.py:70-110 | every static edge ends at the Manager, every worker has one, and every valid route has a target |
| Team.WorkerTurn | app/agents/team.py:59-64 | a worker turn adds one message, sets the next agent, never counts a turn and never shrinks the artifacts |
| Team.RunProps | app/agents/team.py:94-180 | every run ends at FINISH with a final response and status completed or waiting; visits at most Budget workers; the count stays within the cap; artifacts and the log only grow |
| Team.RunEnds | app/agents/team.py:94-180 | how a run ends and that it visits only workers, at most Budget of them |
| Team.RunCounts | app/agents/team.py:94-180 | the final count is the start plus one per worker, plus possibly the final turn, and never passes the cap |
| Team.RunGrows | app/agents/team.py:94-180 | artifacts and the log only grow, one message per worker at least, and the inputs are kept |
| Team.ManagerTurnStep | app/agents/manager.py:102-231 | one Manager turn: a valid route; FINISH carries a response; a worker route is below the cap and counts once; artifacts kept, at most one message |
| Team.WorkerTurnStep | app/agents/team.py:72-74 | one worker turn: count kept, artifacts grow, one message appended, inputs kept |
| Team.FailedEndsRun | app/agents/manager.py:120-127 | a failed workflow below the cap ends at once as completed, with the failure text and no new message |
| Team.DecisionIsFollowed | app/agents/manager.py:189-217 | with a key, the routing model's worker choice is the next worker run |
| Team.TesterStallsUntilCap | app/agents/workers.py:314-324 | without a key, when Dev succeeded but left nothing reviewable, every remaining turn goes to the Tester, no plan is stored, and only the cap ends the run (without the runtime's step limit) |
| Team.CapEndsRun | app/agents/manager.py:102-117 | at the cap the run ends at once as completed, no worker runs and the count is kept |
| Team.TesterRoundStalls | app/agents/manager.py:459-461 | one such round: the fallback picks the Tester, which changes nothing but the count, and the run continues from the next Manager turn |
| Team.RunStep | app/agents/team.py:72-103 | a run that does not finish now is the routed worker followed by the run from the next Manager turn |
| Team.FallbackRoutes | app/agents/manager.py:145-147 | without a key a Manager turn below the cap is the fallback rule's turn |
| Team.HappyBa | app/agents/manager.py:453-455 | from a fresh state the fallback picks BA, whose completion stores its result |
| Team.HappyDev | app/agents/manager.py:456-458 | next the fallback picks Dev, whose success stores its result and a real file |
| Team.HappyTester | app/agents/manager.py:459-461 | next it picks the Tester, whose plan is stored |
| Team.HappyFinish | app/agents/manager.py:462-485 | with every result present the fallback finishes as completed, counting the turn |
| Team.HappyFromTester | app/agents/manager.py:459-485 | from the Tester's turn the run visits only the Tester and completes |
| Team.HappyFromDev | app/agents/manager.py:456-485 | from Dev's turn the run visits Dev then Tester and completes |
| Team.HappyFromBa | app/agents/manager.py:453-485 | from BA's turn the run visits BA, Dev and Tester and completes four turns later |
| Team.FallbackHappyPath | app/agents/team.py:158-180 | from the initial state, without a key and with all three workers succeeding, the route is ba→dev→tester→FINISH, ending completed with count 4 |
| Team.ManagerIgnoresTask | app/agents/manager.py:77-231 | the Manager never reads the `Task` |
| Team.DecidedIgnoresTask | app/agents/manager.py:189-217 | nor does a routing model's decision |
| Team.RoutedIgnoresTask | app/agents/manager.py:144-231 | nor does its routing decision |
| Team.FinalResponseIgnoresTask | app/agents/manager.py:297-390 | nor the final response |
| Team.SimpleResponseIgnoresTask | app/agents/manager.py:393-428 | nor the simple response |
| Team.FallbackIgnoresTask | app/agents/manager.py:431-496 | nor the fallback rule |
| Team.WorkerIgnoresTask | app/agents/workers.py:67-415 | a worker's update, apart from its task write, does not depend on the `Task` |
| Team.ProjApply | app/models/state.py:58 | dropping the `Task` commutes with merging an update whose task write is dropped |
| Team.ManagerStep | app/agents/team.py:94-103 | the Manager's turn follows the specification run: FINISH is its last step, and a worker route is followed by that worker and the rest of the run, two steps fewer |
| Team.WorkerStep | app/agents/team.py:72-74 | the loop's worker step follows the specification run and keeps the budget |
| Team.WorkerNode | app/agents/team.py:59-64 | runs the named worker; its update is the worker turn; a Dev success leaves the `Task`'s artifacts equal to the valid files |
| Team.ManagerNodeEdge | app/agents/team.py:80-103 | the Manager node and its conditional edge: END exactly when the run finishes here, with the run's final state; otherwise the routed worker and the rest of the run |
| Team.TeamRound | app/agents/team.py:94-110 | one pass from the Manager uses one or two steps; it ends at END with the run's final state having used all its steps, or back at the Manager with the run's remaining steps, or at a worker with no step left when the run needs more |
| Team.Drive | app/agents/team.py:180 | the runtime loop reaches END exactly when the run takes at most 25 steps, and then with the run's final state |
| Team.Invoke | app/agents/team.py:180 | `ainvoke` returns the run's final state exactly when the run takes at most 25 steps, and raises otherwise |
| Team.StepsWithinBudget | app/agents/team.py:94-110 | a run takes at most twice its Manager budget plus one steps |
| Team.DefaultCapFitsLimit | app/agents/team.py:118 | a run from the initial state with a cap of at most 12 fits the default step limit |
| Team.TesterStallHitsLimit | app/agents/team.py:180 | the stall takes exactly twice the budget plus one steps, so with a cap above 12 it meets the step limit |
| Team.RunTeamWorkflow | app/agents/team.py:128-199 | a final state exactly when the run from the initial state takes at most 25 steps, always when the cap is at most 12; it is, task aside, the run's final state; after a Dev success the `Task`'s artifacts are the valid files |
| Developer.StoryLines | app/agents/developer.py:39-48 | a story's block: numbered header, id, title, description, criteria when present, blank line |
| Developer.AllStoryLines | app/agents/developer.py:38-48 | the blocks start with "User Story <start>:" |
| Developer.FormatUserStories | app/agents/developer.py:33-50 | no stories give the fixed text; otherwise the text starts with "User Story 1:" |
| Developer.StoryLinesListed | app/agents/developer.py:38-48 | every line of every story's block is among the lines |
| Developer.LineInJoin | app/agents/developer.py:50 | a joined line occurs in the joined text |
| Developer.StoryInText | app/agents/developer.py:33-50 | every story's id, title and description occur in the formatted text |
| Developer.ContextLines | app/agents/developer.py:58-62 | three lines per context entry |
| Developer.ContextLineAt | app/agents/developer.py:58-62 | entry k gives "Context <k+start>:", the entry, and a blank line |
| Developer.FormatContext | app/agents/developer.py:53-64 | no context gives the fixed text; otherwise the text starts with "Context 1:" |
| Developer.ContextInText | app/agents/developer.py:53-64 | every context entry occurs in the formatted text |
| Developer.DevPrompt | app/agents/developer.py:252-267 | the prompt contains the stories text and the context text, and ends with the request to generate the implementation |
| Developer.TaskPrompt | app/agents/developer.py:230-267 | the prompt for a task contains its formatted stories and its merged context, formatted |
| Developer.PythonFiles | app/agents/developer.py:87 | the files the static check takes are exactly those whose path ends in ".py" |
| Developer.StaticRaise | app/agents/developer.py:87-115 | the static check raises only when there is a ".py" file, and then what it raises on the Python files |
| Developer.Implementation | app/agents/developer.py:277-317 | the static check's exception escapes exactly when the model returned a plan and files and the check raises on them, which needs a ".py" file; otherwise a success exactly when the call returned a non-empty plan and some files, and a failure carries an error and no created files |
| Developer.WriteEntry | app/agents/developer.py:178-189 | a successful dict reply gives its message; anything else gives "[ERROR] <path>: <msg>" |
| Developer.WriteEntries | app/agents/developer.py:167-191 | one entry per file, in file order, each the file's write entry |
| Developer.WriteFilesToWorkspace | app/agents/developer.py:153-191 | the loop returns exactly the entries, writing under `project_id or "default"` |
| Developer.FailedWriteRecorded | app/agents/developer.py:186-189 | a raising write is recorded as an error entry and the later files are still written |
| Developer.FilePathsSnoc | app/agents/developer.py:305 | the paths of all files are those of all but the last, plus the last |
| Developer.Diffs | app/agents/developer.py:304-306 | one diff per distinct path |
| Developer.DiffOfLastFile | app/agents/developer.py:305-306 | a path's diff is "+ <len> bytes" of the last file with that path |
| Developer.BuildDiffs | app/agents/developer.py:304-306 | the loop builds exactly the diffs |
| Developer.ContextAfter | app/agents/developer.py:235-237 | the stored context is present exactly when it was, and changes only to the merged list |
| Developer.ImplementationFailures | app/agents/developer.py:277-294 | a model failure, an empty plan and no files fail in that order with their fixed errors; then the static check's exception escapes; success exactly otherwise |
| Developer.ImplementationSuccess | app/agents/developer.py:296-317 | a success carries the plan and files, one write entry per file, one "+ "-diff per path, and explanations only when asked for |
| Developer.LastWithPath | app/agents/developer.py:305-306 | some file with a given path is the last one with it |
| Developer.Respond | app/agents/developer.py:277-317 | checks the model's answer, runs the static check, writes and summarises, as the outcome function says |
| Developer.GenerateImplementation | app/agents/developer.py:194-317 | without a key it fails with the fixed error and changes nothing; otherwise the context is merged in place as the code does and the outcome, returned or raised, follows from the model's answer and the static check |
| Tester.ReadOne | app/agents/tester.py:56-68 | an artifact's own non-empty source wins; otherwise the read text, or text starting with "[ERROR" when the read fails |
| Tester.ReadErrorText | app/agents/tester.py:66-68 | an unreadable file's text starts with "[ERROR" |
| Tester.SourcePaths | app/agents/tester.py:385 | the artifact paths, in order |
| Tester.SourcePathsSnoc | app/agents/tester.py:385 | the paths of all artifacts are those of all but the last, plus the last |
| Tester.ReadAll | app/agents/tester.py:53-70 | one entry per artifact path |
| Tester.ReadAllLastWins | app/agents/tester.py:56-68 | a path's content comes from the last artifact with that path: its own source when non-empty, else the read, else the error text |
| Tester.ReadSourceFiles | app/agents/tester.py:40-70 | the loop reads exactly those contents under `project_id or "default"` |
| Tester.ValidSources | app/agents/tester.py:309-324 | keeps exactly the contents that are not read errors and parse, unchanged |
| Tester.FilterValid | app/agents/tester.py:311-324 | the loop keeps exactly those contents |
| Tester.UnreadableWithheld | app/agents/tester.py:63-68 | an artifact without its own source whose read fails never reaches the model |
| Tester.Checked | app/agents/tester.py:383-400 | the sandbox is asked to run the tests exactly when that is asked for and tests exist; a syntax failure carries the syntax errors |
| Tester.CheckedParts | app/agents/tester.py:383-400 | without a run the validation is syntax-valid with the coverage estimate; with one, compiling tests get the sandbox's execution record for the given run, and the same estimate |
| Tester.CheckedAsWritten | app/agents/test_runner.py:226-228 | as the code stands, the sandbox's record is the as-written failure and no test passes |
| Tester.Generated | app/agents/tester.py:373-420 | a model failure gives the generation-failed plan; otherwise the model's plan with the validation attached |
| Tester.Review | app/agents/tester.py:258-420 | no key gives the critical no-key plan before the empty-artifacts plan; otherwise the generated plan |
| Tester.TestsComeFromModel | app/agents/tester.py:258-302 | every test in a plan came from the model; the error plans carry none |
| Tester.ExecutionOnlyWhenAsked | app/agents/tester.py:383-400 | execution only when asked for and tests exist; a syntax failure only then |
| Tester.ReviewAndGenerateTests | app/agents/tester.py:233-420 | the method's plan is the review's plan |
| Tester.Generate | app/agents/tester.py:304-420 | the method's plan is the generated plan |
| Tester.Discover | app/agents/tester.py:447-454 | keeps exactly the Python files that are not tests and not caches, in listing order |
| Tester.AsRefs | app/agents/tester.py:441 | one artifact per path, in order, with no source of its own |
| Tester.NoExecutionWithoutRun | app/agents/tester.py:476-477 | a review without a run never executes and is syntax-valid |
| Tester.ProjectRefs | app/agents/tester.py:439-474 | given paths are used unchanged; otherwise the discovered files, or the listing's error |
| Tester.ReviewProject | app/agents/tester.py:423-477 | a listing failure gives the review-failed plan; otherwise the review of the chosen artifacts, never executed |
| Tester.TestFilesSkipped | app/agents/tester.py:447-454 | top-level "test_" files, everything under "tests/", and non-Python files are never reviewed |
| Tester.NothingReviewable | app/agents/tester.py:447-454 | a listing with nothing reviewable discovers nothing |
| Tester.EmptyProjectReported | app/agents/tester.py:439-457 | such a project is reported with the no-artifacts plan |
| TestRunner.ValidateTestSyntax | app/agents/test_runner.py:24-43 | valid exactly when it compiles, and then with no errors; otherwise one error with the syntax or compilation prefix |
| TestRunner.Prefixed | app/agents/test_runner.py:195 | each error is prefixed "<path>: " |
| TestRunner.SyntaxErrors | app/agents/test_runner.py:190-196 | at most one error per file |
| TestRunner.SyntaxErrorsEmpty | app/agents/test_runner.py:190-198 | there are no syntax errors exactly when every file compiles |
| TestRunner.AllCompileSnoc | app/agents/test_runner.py:190-196 | all files compile when all but the last do and the last does |
| TestRunner.SyntaxErrorsStep | app/agents/test_runner.py:190-196 | one more file adds its prefixed errors |
| TestRunner.CheckSyntax | app/agents/test_runner.py:184-198 | valid exactly when every file compiles, with every file's errors |
| TestRunner.CollectSyntaxErrors | app/agents/test_runner.py:190-196 | the loop collects exactly the errors, valid exactly when there are none |
| TestRunner.RunStaticAnalysis | app/agents/test_runner.py:46-84 | the print warning exactly when "print(" occurs without "# debug"; the import warning exactly when pytest is never imported; always the three checks |
| TestRunner.PathsSnoc | app/agents/test_runner.py:209-210 | the paths of all files are those of all but the last, plus the last |
| TestRunner.StaticResults | app/agents/test_runner.py:208-210 | one report per distinct test path |
| TestRunner.StaticPass | app/agents/test_runner.py:208-211 | the loop builds exactly those reports |
| TestRunner.StaticResultsLastWins | app/agents/test_runner.py:209-210 | a path's report is that of the last file with the path |
| TestRunner.Uncovered | app/agents/test_runner.py:126-135 | exactly the sources no test case refers to |
| TestRunner.Bucket | app/agents/test_runner.py:114-123 | 75-90% iff T ≥ 3S, 60-75% iff 2S ≤ T < 3S, 40-60% iff S ≤ T < 2S, 20-40% iff T < S |
| TestRunner.BucketMonotone | app/agents/test_runner.py:116-123 | more test cases never give a lower range |
| TestRunner.Recommendations | app/agents/test_runner.py:138-150 | the low-ratio note only when T < S, the uncovered note only when some source is uncovered, always ending with the two fixed notes |
| TestRunner.Coverage | app/agents/test_runner.py:87-156 | no tests or no sources give "0%" with the sources (or the placeholder) and the single note; otherwise the bucket, the uncovered sources and the notes |
| TestRunner.NothingUncovered | app/agents/test_runner.py:126-135 | with a test for every source nothing is uncovered |
| TestRunner.FullCoverageNotes | app/agents/test_runner.py:138-150 | then, with at least one test per source, only the two fixed notes remain |
| TestRunner.CountTests | app/agents/test_runner.py:110 | the loop totals the test cases |
| TestRunner.CollectUncovered | app/agents/test_runner.py:126-135 | the loop collects exactly the uncovered sources |
| TestRunner.CoverageParts | app/agents/test_runner.py:109-156 | the estimate for non-empty inputs is the bucket, the uncovered sources and their notes |
| TestRunner.EstimateCoverage | app/agents/test_runner.py:87-156 | the method returns exactly the estimate |
| TestRunner.Recommend | app/agents/test_runner.py:138-150 | the method returns exactly the recommendations |
| TestRunner.TrailingWord | app/agents/test_runner.py:265 | the run of non-space characters at the end of the text |
| TestRunner.LastWord | app/agents/test_runner.py:265 | the last whitespace-separated word, if any, is non-empty and space-free |
| TestRunner.CountOn | app/agents/test_runner.py:263-277 | a line without the marker gives no count |
| TestRunner.LastCount | app/agents/test_runner.py:257-277 | with no line yielding a count, the count is 0 |
| TestRunner.LastCountStep | app/agents/test_runner.py:262-277 | a last line yielding nothing is passed over |
| TestRunner.LastCountSkips | app/agents/test_runner.py:262-277 | lines without the marker do not change the count |
| TestRunner.LastCountNext | app/agents/test_runner.py:262-277 | a line yielding a count replaces the earlier count |
| TestRunner.ParseCounts | app/agents/test_runner.py:257-277 | the loop's passed, failed and skipped counts are the last counts of the output's lines |
| TestRunner.TrailingWordAfter | app/agents/test_runner.py:265 | a word typed after a space is the trailing word |
| TestRunner.CountIsRead | app/agents/test_runner.py:263-267 | a count printed after a space, before the marker, is read back exactly |
| TestRunner.CountOnFound | app/agents/test_runner.py:263-267 | a line's count is the parsed last word before the marker's first occurrence |
| TestRunner.Execution | app/agents/test_runner.py:214-312 | success exactly when the writes succeed and pytest exits 0; an exit reports command, code, output and parsed counts; a missing file reports "pytest not found"; a timeout reports the timeout |
| TestRunner.AsWrittenExecution | app/agents/test_runner.py:226-228 | as the code stands, every run whose files are written fails with the TypeError and no counts |
| TestRunner.Validation | app/agents/test_runner.py:184-319 | syntax-valid exactly when every file compiles; a syntax failure stops before execution with exit -1; otherwise execution, coverage and static reports |
| TestRunner.RunTestsSandboxed | app/agents/test_runner.py:159-319 | the corrected run reports exactly the validation of its execution |
| TestRunner.RunTestsSandboxedAsWritten | app/agents/test_runner.py:159-319 | the run as written reports the validation of the as-written execution |
| TestRunner.RaisedRunIsAsWritten | app/agents/test_runner.py:226-228 | a run that raises the division's `TypeError` gives the as-written execution, with no test passed |
| TestRunner.PassingRunLostAsWritten | app/agents/test_runner.py:228 | a passing pytest run is a success with its count when corrected, and a failure with no passes as written |

## Left out

- LLM invocation. The model clients, prompt templates, structured output and the LLM-written summary in `_generate_final_response` are left out. The routing model's answer, the summary text and each specialist's outcome are inputs indexed by turn. Worker outcomes are indexed by worker turn, not by which worker runs.
- `route_request`, the legacy router entry point in app/agents/manager.py, is left out. The graph never calls it.
- Prompt text beyond what the contracts state. `analyze_code_structure`, `format_source_files` and `format_code_analysis` in app/agents/tester.py depend on Python's AST. The model is given the map of valid sources and the context rather than the prompt text.
- Python compilation and parsing (`compile`, `ast.parse`) are opaque inputs (`Compiler`, `parses`).
- Developer.StaticRaise: what `run_static_checks` raises is an input (`Developer.StaticCheck`). Its writes below the scratch directory are not modelled, including a ".py" path that is absolute or contains `..` and so is written outside it before the workspace tool refuses the file. Its report (syntax results, `ruff` and `mypy` subprocesses) is not part of the modelled result.
- The sandbox's temporary directory, subprocess, wall-clock timing and the float `execution_time_seconds` are left out. How the writes and the pytest process end is an input.
- `uuid` task ids are inputs.
- Team.Drive: the runtime's step counter is modelled as one step per node execution, limited to 25. How LangGraph numbers the input step is not modelled. A configured `recursion_limit` cannot occur, since the code never passes one.
- FileTools.WriteFile: the directories `mkdir` creates before a refused write are not modelled. An error from `mkdir` is folded into the disk's answer to the write.
- Symbolic links and `Path.resolve` are left out. The file system's canonical form of a pure path is an input function (`Resolver`); pathlib's lexical joining and comparison are modelled. `mkdir` and the SHA-256 checksum (another input function) are not modelled.
- `_write_file_impl`, `_read_file_impl` and `_list_files_impl` are imported by the agents but not defined in app/tools/file_tools.py. They are not part of this model; their results are inputs.
- The other read, list and directory-structure tools in app/tools/file_tools.py and app/tools/ba_tools.py, `get_graph_visualization` and the log formatters in app/logging_config.py are left out. They have no effect on the workflow.
- JSON encoding of tool replies is left out; replies are datatypes. JSON decoding and pydantic validation in `parse_ba_response` are an input decoder.
- The `TestPlan`, `TestFile`, `TestCase`, `RiskAssessment` and validation records are not defined in app/models/schemas.py. Their fields are taken from how the agents use them, and `syntax_errors` defaults to an empty list.
- The test-matrix and priority contents of a plan are carried through unchanged and not modelled.
- Persistence, the HTTP routers, app/main.py, configuration loading and the cost logger are left out.
- Tester.ValidSources: the kept contents are a map, so the insertion order of the Python dict (the order of the prompt sections) is not captured.
- Text.Lower: models `str.lower()` only for ASCII letters and the Kelvin sign. Other characters are kept as they are. Some other characters lower-case to text containing ASCII letters: 'İ' (U+0130) becomes "i\u0307". No listed sensitive key contains 'i' followed by U+0307, so the redaction decision is the same for every key.
- Text.ParseInt: accepts ASCII digits only. Python's `int()` also accepts other Unicode decimal digits.
- TestRunner.Coverage: the ratio is compared as integers (T ≥ kS), which matches Python's float division except for counts too large to represent exactly.
- Team.RunFrom: routing values outside ba, dev, tester and FINISH cannot occur. The routing model's answer is an `Agent` value, as the pydantic schema enforces.
- Schemas.Task: only the fields the workflow reads or writes are modelled. `assigned_to`, `agent_messages`, the timestamps and `error_message` are not.

## Findings

| source | as written | input that shows it | evidently intended | confidence | as-written member | corrected member |
|---|---|---|---|---|---|---|
| app/agents/test_runner.py:228 | `Path(tmpdir / "__init__.py")` divides the scratch directory's name, a `str`, by a `str`. This raises `TypeError` after the test files are written and before pytest starts, and the catch-all handler reports it as a failed execution with exit code -1 | any test files that all compile and are written, for example one file `test_a.py` with `import pytest` and `def test_a(): pass` whose pytest run would print "1 passed" | `Path(tmpdir) / "__init__.py"`, so that pytest runs and its result and counts are reported | not executed | TestRunner.RunTestsSandboxedAsWritten, TestRunner.PassingRunLostAsWritten | TestRunner.RunTestsSandboxed |
