/** The shared record every node of the team graph reads, and the merge rule
    by which a node's partial update is folded into it: `messages` is
    concatenated, every other key present in the update overwrites. */
module State {
  import opened Wrappers
  import opened Schemas

  /** A chat message: the user's request, or an agent's note signed with its name. */
  datatype Message = Human(content: string) | Ai(name: string, content: string)

  /** Values the routing field is meant to take after a Manager turn. */
  predicate IsRoute(a: string) {
    a == "ba" || a == "dev" || a == "tester" || a == "FINISH"
  }

  /** Values the workflow status is meant to take. */
  predicate IsStatus(st: string) {
    st == "pending" || st == "in_progress" || st == "waiting_for_clarification"
    || st == "completed" || st == "failed"
  }

  /** The team state. `artifacts` is a set: every writer stores
      `list(set(old + new))`, so the list never holds a duplicate and its
      order is unspecified. `finalResponse == None` stands for the key
      being absent (the initial state omits it). */
  datatype TeamState = TeamState(
    userRequest: string,
    projectId: Option<string>,
    messages: seq<Message>,
    nextAgent: string,
    task: Option<Task>,
    baResult: Option<BAResponse>,
    devResult: Option<ImplementationResult>,
    testerResult: Option<TestPlan>,
    artifacts: set<string>,
    status: string,
    clarifyingQuestions: seq<string>,
    finalResponse: Option<string>,
    errorMessage: Option<string>,
    iterationCount: int,
    maxIterations: int)

  /** One key of a partial update: absent (`Keep`) or present with a value. */
  datatype Field<T> = Keep | Set(value: T)

  function Merge<T>(old_: T, f: Field<T>): (r: T)
    ensures f.Keep? ==> r == old_
    ensures f.Set? ==> r == f.value
  {
    match f
    case Keep => old_
    case Set(v) => v
  }

  /** Composition of two writes to one key: the later present one wins. */
  function Then<T>(f: Field<T>, g: Field<T>): Field<T> {
    if g.Set? then g else f
  }

  /** The partial update a node returns. Nodes never write `user_request`,
      `project_id` or `max_iterations`, so those keys have no slot. */
  datatype Update = Update(
    messages: seq<Message>,
    nextAgent: Field<string>,
    task: Field<Option<Task>>,
    baResult: Field<Option<BAResponse>>,
    devResult: Field<Option<ImplementationResult>>,
    testerResult: Field<Option<TestPlan>>,
    artifacts: Field<set<string>>,
    status: Field<string>,
    clarifyingQuestions: Field<seq<string>>,
    finalResponse: Field<Option<string>>,
    errorMessage: Field<Option<string>>,
    iterationCount: Field<int>)

  /** The update with no message and no key. */
  const NoChange: Update :=
    Update([], Keep, Keep, Keep, Keep, Keep, Keep, Keep, Keep, Keep, Keep, Keep)

  /** Merges a node's update into the state. */
  function Apply(s: TeamState, u: Update): (r: TeamState)
    ensures r.messages == s.messages + u.messages
    ensures r.userRequest == s.userRequest && r.projectId == s.projectId
    ensures r.maxIterations == s.maxIterations
    ensures u.iterationCount.Keep? ==> r.iterationCount == s.iterationCount
    ensures u.artifacts.Keep? ==> r.artifacts == s.artifacts
    ensures u.status.Keep? ==> r.status == s.status
  {
    TeamState(
      s.userRequest,
      s.projectId,
      s.messages + u.messages,
      Merge(s.nextAgent, u.nextAgent),
      Merge(s.task, u.task),
      Merge(s.baResult, u.baResult),
      Merge(s.devResult, u.devResult),
      Merge(s.testerResult, u.testerResult),
      Merge(s.artifacts, u.artifacts),
      Merge(s.status, u.status),
      Merge(s.clarifyingQuestions, u.clarifyingQuestions),
      Merge(s.finalResponse, u.finalResponse),
      Merge(s.errorMessage, u.errorMessage),
      Merge(s.iterationCount, u.iterationCount),
      s.maxIterations)
  }

  /** Two updates applied one after the other, as a single update. */
  function Compose(u: Update, v: Update): Update {
    Update(
      u.messages + v.messages,
      Then(u.nextAgent, v.nextAgent),
      Then(u.task, v.task),
      Then(u.baResult, v.baResult),
      Then(u.devResult, v.devResult),
      Then(u.testerResult, v.testerResult),
      Then(u.artifacts, v.artifacts),
      Then(u.status, v.status),
      Then(u.clarifyingQuestions, v.clarifyingQuestions),
      Then(u.finalResponse, v.finalResponse),
      Then(u.errorMessage, v.errorMessage),
      Then(u.iterationCount, v.iterationCount))
  }

  /** The empty update changes nothing. */
  lemma ApplyNoChange(s: TeamState)
    ensures Apply(s, NoChange) == s
  {
  }

  /** Merging two updates in turn equals merging their composition: the
      message log is associative and every other key is last-writer-wins. */
  lemma ApplyCompose(s: TeamState, u: Update, v: Update)
    ensures Apply(Apply(s, u), v) == Apply(s, Compose(u, v))
  {
    assert s.messages + u.messages + v.messages == s.messages + (u.messages + v.messages);
  }

  /** The message log only grows: the old log is a prefix of the new one,
      and the update's messages follow it in their own order. */
  lemma MessagesAppend(s: TeamState, u: Update)
    ensures |Apply(s, u).messages| == |s.messages| + |u.messages|
    ensures Apply(s, u).messages[..|s.messages|] == s.messages
    ensures forall i :: 0 <= i < |u.messages| ==> Apply(s, u).messages[|s.messages| + i] == u.messages[i]
  {
  }

  /** The state with the `Task` reference dropped. No routing decision and no
      worker update depends on the `Task` object. */
  function Proj(s: TeamState): (r: TeamState)
    ensures r.task == None
  {
    s.(task := None)
  }
}
