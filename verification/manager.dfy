/** The Manager (supervisor) node: three guard checks in fixed order, then
    either an oracle's routing decision or the deterministic fallback rule,
    and the texts it produces for the user and for its own prompt. */
module Manager {
  import opened Wrappers
  import opened Text
  import opened Schemas
  import opened State

  /** The four choices a routing decision can make. */
  datatype Agent = Ba | Dev | Tester | Finish

  function AgentName(a: Agent): (n: string)
    ensures IsRoute(n)
    ensures n == "FINISH" <==> a == Finish
  {
    match a
    case Ba => "ba"
    case Dev => "dev"
    case Tester => "tester"
    case Finish => "FINISH"
  }

  /** What the oracle's routing call produced: a decision with its
      reasoning, a `ValueError`, or any other exception. */
  datatype RouteCall =
    | Decided(agent: Agent, reasoning: string)
    | ValueErrorRaised(msg: string)
    | Raised(msg: string)

  /** The `ValueError` text that marks a model without structured output. */
  const StructuredOutputMarker: string := "Structured Output response does not have a 'parsed'"

  const ClarifyHeader: string := "I need some clarification to proceed:"
  const WorkflowCompleted: string := "Workflow completed."

  // ---------------------------------------------------------------------------
  // Facts about the state the Manager looks at
  // ---------------------------------------------------------------------------

  predicate DevSucceeded(s: TeamState) {
    s.devResult.Some? && s.devResult.value.success
  }

  predicate HasTests(s: TeamState) {
    s.testerResult.Some? && |s.testerResult.value.tests| > 0
  }

  predicate AwaitsClarification(s: TeamState) {
    s.status == "waiting_for_clarification" && |s.clarifyingQuestions| > 0
  }

  /** The error text as an f-string prints it; the key is always present,
      so a `None` value prints as "None". */
  function ErrorText(s: TeamState): string {
    match s.errorMessage
    case Some(e) => e
    case None => "None"
  }

  /** The failure text names the error, when there is one. */
  function FailureText(s: TeamState): (r: string)
    ensures StartsWith(r, "Something went wrong: ")
    ensures s.errorMessage.Some? ==> Contains(r, s.errorMessage.value)
    ensures s.errorMessage.None? ==> EndsWith(r, "None")
  {
    ContainsRight("Something went wrong: ", ErrorText(s));
    "Something went wrong: " + ErrorText(s)
  }

  // ---------------------------------------------------------------------------
  // Final response texts
  // ---------------------------------------------------------------------------

  /** The numbered lines "k. question", counting from `start`. */
  function Numbered(qs: seq<string>, start: nat): (r: seq<string>)
    ensures |r| == |qs|
    ensures forall i :: 0 <= i < |qs| ==> r[i] == NatToString(start + i) + ". " + qs[i]
    decreases |qs|
  {
    if |qs| == 0 then [] else [NatToString(start) + ". " + qs[0]] + Numbered(qs[1..], start + 1)
  }

  /** The clarification text of `_generate_final_response`: the header,
      a blank line, and the numbered questions. */
  function ClarifyText(qs: seq<string>): (r: string)
    ensures StartsWith(r, ClarifyHeader + "\n\n")
  {
    ClarifyStart(qs);
    ClarifyHeader + "\n\n" + Join(Numbered(qs, 1), "\n")
  }

  lemma ClarifyStart(qs: seq<string>)
    ensures StartsWith(ClarifyHeader + "\n\n" + Join(Numbered(qs, 1), "\n"), ClarifyHeader + "\n\n")
  {
    var pre := ClarifyHeader + "\n\n";
    assert (pre + Join(Numbered(qs, 1), "\n"))[..|pre|] == pre;
  }

  /** The clauses of the LLM-free summary, in their fixed order. */
  function SimpleClauses(s: TeamState): seq<string> {
    (if s.baResult.Some? then ["Business analysis complete."] else [])
    + (if DevSucceeded(s) && |s.devResult.value.createdFiles| > 0
       then ["Created " + NatToString(|s.devResult.value.createdFiles|) + " file(s)."] else [])
    + (if HasTests(s) then ["Testing complete."] else [])
    + (if |s.artifacts| > 0 then ["Total: " + NatToString(|s.artifacts|) + " artifacts created."] else [])
  }

  /** `_build_simple_response`: its clarification text is the final
      response's, its failure text names the error, and otherwise it is
      "Workflow completed." exactly when no summary clause applies. */
  function BuildSimpleResponse(s: TeamState): (r: string)
    ensures AwaitsClarification(s) ==> r == ClarifyText(s.clarifyingQuestions)
    ensures !AwaitsClarification(s) && s.status == "failed" ==> r == FailureText(s)
    ensures !AwaitsClarification(s) && s.status != "failed" ==>
      (r == WorkflowCompleted <==> SimpleClauses(s) == [])
  {
    if AwaitsClarification(s) then
      ClarifyPathsAgree(s.clarifyingQuestions);
      Join([ClarifyHeader + "\n"] + Numbered(s.clarifyingQuestions, 1), "\n")
    else if s.status == "failed" then FailureText(s)
    else
      var parts := SimpleClauses(s);
      if |parts| == 0 then WorkflowCompleted
      else
        ClausesAreNotCompleted(s);
        Join(parts, " ")
  }

  /** `_generate_final_response`. `llmText` is the summarising model's
      reply, or `None` when that call raises. */
  function GenerateFinalResponse(s: TeamState, hasApiKey: bool, llmText: Option<string>): (r: string)
    // The model's summary replaces the LLM-free response only on the normal
    // path, with a key, and when the call returns.
    ensures hasApiKey && llmText.Some? && !AwaitsClarification(s) && s.status != "failed" ==>
      r == llmText.value
    ensures !(hasApiKey && llmText.Some? && !AwaitsClarification(s) && s.status != "failed") ==>
      r == BuildSimpleResponse(s)
  {
    if AwaitsClarification(s) then ClarifyText(s.clarifyingQuestions)
    else if s.status == "failed" then FailureText(s)
    else if !hasApiKey then BuildSimpleResponse(s)
    else llmText.GetOr(BuildSimpleResponse(s))
  }

  // ---------------------------------------------------------------------------
  // Fallback routing
  // ---------------------------------------------------------------------------

  /** The fallback's choice: the first missing result, in pipeline order. */
  function FallbackChoice(s: TeamState): (a: Agent)
    ensures a == Ba <==> s.baResult.None?
    ensures a == Dev <==> s.baResult.Some? && !DevSucceeded(s)
    ensures a == Tester <==> s.baResult.Some? && DevSucceeded(s) && s.testerResult.None?
    ensures a == Finish <==> s.baResult.Some? && DevSucceeded(s) && s.testerResult.Some?
  {
    if s.baResult.None? then Ba
    else if !DevSucceeded(s) then Dev
    else if s.testerResult.None? then Tester
    else Finish
  }

  function FallbackReasoning(a: Agent): string {
    match a
    case Ba => "No BA analysis yet. Starting with requirements analysis."
    case Dev => "BA complete. Proceeding to implementation."
    case Tester => "Dev complete. Proceeding to testing."
    case Finish => "All agents completed. Workflow finished."
  }

  /** The note appended to the reasoning when the fallback follows an error
      (an empty error text is falsy and adds nothing). */
  function ErrorNote(error: Option<string>): string {
    if error.Some? && error.value != "" then " (Note: LLM routing failed: " + error.value + ")" else ""
  }

  /** The update a Manager turn returns when it finishes the workflow. */
  function FinishUpdate(msgs: seq<Message>, fr: string, count: Field<int>, status: Field<string>): Update {
    NoChange.(messages := msgs, nextAgent := Set("FINISH"), status := status,
              finalResponse := Set(Some(fr)), iterationCount := count)
  }

  /** The message of a fallback turn that routes to a worker. */
  function FallbackMessage(a: Agent, error: Option<string>): string {
    "Manager (Fallback): Routing to " + AgentName(a) + ". " + (FallbackReasoning(a) + ErrorNote(error))
  }

  /** `_fallback_routing`: routes to the fallback's choice and counts the
      turn; finishing completes the workflow with the LLM-free response, and
      a worker route leaves the status alone. */
  function FallbackRouting(s: TeamState, error: Option<string>): (u: Update)
    ensures u.nextAgent == Set(AgentName(FallbackChoice(s)))
    ensures u.iterationCount == Set(s.iterationCount + 1)
    ensures FallbackChoice(s) == Finish ==>
      u.status == Set("completed") && u.finalResponse == Set(Some(BuildSimpleResponse(s)))
    ensures FallbackChoice(s) != Finish ==> u.status.Keep? && u.finalResponse.Keep?
    ensures |u.messages| == 1 && u.messages[0].Ai? && u.messages[0].name == "Manager"
  {
    var a := FallbackChoice(s);
    if a == Finish then
      var fr := BuildSimpleResponse(s);
      FinishUpdate([Ai("Manager", fr)], fr, Set(s.iterationCount + 1), Set("completed"))
    else
      NoChange.(messages := [Ai("Manager", FallbackMessage(a, error))],
                nextAgent := Set(AgentName(a)),
                iterationCount := Set(s.iterationCount + 1))
  }

  // ---------------------------------------------------------------------------
  // The Manager node
  // ---------------------------------------------------------------------------

  /** `manager_node`: cap check, failed check and clarification check in that
      order, then the routing decision. */
  function ManagerNode(s: TeamState, hasApiKey: bool, route: RouteCall, llmText: Option<string>): (u: Update)
    // Always a valid routing decision; a worker route counts one turn below the cap.
    ensures u.nextAgent.Set? && IsRoute(u.nextAgent.value)
    ensures u.nextAgent.value != "FINISH" ==>
      s.iterationCount < s.maxIterations && u.iterationCount == Set(s.iterationCount + 1)
    ensures u.task.Keep? && u.baResult.Keep? && u.devResult.Keep? && u.testerResult.Keep?
    ensures u.artifacts.Keep? && u.clarifyingQuestions.Keep? && u.errorMessage.Keep?
  {
    if s.iterationCount >= s.maxIterations then
      var fr := GenerateFinalResponse(s, hasApiKey, llmText);
      FinishUpdate([Ai("Manager", fr)], fr, Keep, Set("completed"))
    else if s.status == "failed" then
      var fr := GenerateFinalResponse(s, hasApiKey, llmText);
      FinishUpdate([], fr, Keep, Set("completed"))
    else if s.status == "waiting_for_clarification" then
      var fr := GenerateFinalResponse(s, hasApiKey, llmText);
      FinishUpdate([Ai("Manager", fr)], fr, Keep, Keep)
    else Routed(s, hasApiKey, route, llmText)
  }

  /** The routing decision once the guards pass: the oracle's with an API
      key, the fallback rule's without one or when the oracle raises. */
  function Routed(s: TeamState, hasApiKey: bool, route: RouteCall, llmText: Option<string>): (u: Update)
    ensures u.nextAgent.Set? && IsRoute(u.nextAgent.value)
    ensures u.iterationCount == Set(s.iterationCount + 1)
    ensures u.nextAgent.value == "FINISH" <==> u.finalResponse.Set?
    ensures u.finalResponse.Set? ==> u.finalResponse.value.Some?
    ensures u.nextAgent.value == "FINISH" ==> u.status == Set("completed")
    ensures u.nextAgent.value != "FINISH" ==> u.status.Keep?
    ensures |u.messages| == 1 && u.messages[0].Ai? && u.messages[0].name == "Manager"
    ensures u.task.Keep? && u.baResult.Keep? && u.devResult.Keep? && u.testerResult.Keep?
    ensures u.artifacts.Keep? && u.clarifyingQuestions.Keep? && u.errorMessage.Keep?
  {
    if !hasApiKey then
      FallbackRouting(s, None)
    else
      match route
      case Decided(a, reasoning) =>
        if a == Finish then
          var fr := GenerateFinalResponse(s, hasApiKey, llmText);
          FinishUpdate([Ai("Manager", fr)], fr, Set(s.iterationCount + 1), Set("completed"))
        else
          NoChange.(messages := [Ai("Manager", "Manager: Routing to " + AgentName(a) + ". Reasoning: " + reasoning)],
                    nextAgent := Set(AgentName(a)),
                    iterationCount := Set(s.iterationCount + 1))
      case ValueErrorRaised(msg) =>
        if Contains(msg, StructuredOutputMarker) then FallbackRouting(s, None)
        else FallbackRouting(s, Some(msg))
      case Raised(msg) =>
        FallbackRouting(s, Some(msg))
  }

  /** What every Manager turn guarantees, branch by branch. */
  lemma ManagerNodeProps(s: TeamState, hasApiKey: bool, route: RouteCall, llmText: Option<string>)
    ensures var u := ManagerNode(s, hasApiKey, route, llmText);
      // FINISH carries the final response, and only "completed" is ever written
      && (u.nextAgent.value == "FINISH" <==> u.finalResponse.Set?)
      && (u.finalResponse.Set? ==> u.finalResponse.value.Some?)
      && (u.status.Set? ==> u.status.value == "completed")
      && |u.messages| <= 1 && (forall m :: m in u.messages ==> m.Ai? && m.name == "Manager")
      // the iteration cap wins over everything and does not count a turn
      && (s.iterationCount >= s.maxIterations ==>
            u.nextAgent.value == "FINISH" && u.status == Set("completed") && u.iterationCount.Keep?
            && u.messages == [Ai("Manager", u.finalResponse.value.value)])
      // a failed workflow finishes silently, reported as completed
      && (s.iterationCount < s.maxIterations && s.status == "failed" ==>
            u.nextAgent.value == "FINISH" && u.status == Set("completed") && u.iterationCount.Keep?
            && u.messages == [] && u.finalResponse == Set(Some(FailureText(s))))
      // a workflow waiting for clarification finishes with its status unchanged
      && (s.iterationCount < s.maxIterations && s.status == "waiting_for_clarification" ==>
            u.nextAgent.value == "FINISH" && u.status.Keep? && u.iterationCount.Keep?
            && u.messages == [Ai("Manager", u.finalResponse.value.value)])
      // every routing turn counts exactly once
      && (s.iterationCount < s.maxIterations && s.status != "failed"
          && s.status != "waiting_for_clarification" ==>
            u.iterationCount == Set(s.iterationCount + 1) && |u.messages| == 1
            && (u.nextAgent.value == "FINISH" ==> u.status == Set("completed")))
      // without an API key the decision is the fallback rule's
      && (s.iterationCount < s.maxIterations && s.status != "failed"
          && s.status != "waiting_for_clarification" && !hasApiKey ==>
            u == FallbackRouting(s, None))
  {
    if s.iterationCount >= s.maxIterations {
      CapTurn(s, hasApiKey, route, llmText);
    } else if s.status == "failed" {
      FailedTurn(s, hasApiKey, route, llmText);
    } else if s.status == "waiting_for_clarification" {
      WaitingTurn(s, hasApiKey, route, llmText);
    } else {
      RoutingTurn(s, hasApiKey, route, llmText);
      if !hasApiKey {
        NoKeyTurn(s, route, llmText);
      }
    }
  }

  /** The shape of every Manager update: FINISH exactly when a final
      response is written, only "completed" as a status, and at most one
      message, from the Manager. */
  predicate TurnShape(u: Update) {
    && u.nextAgent.Set?
    && (u.nextAgent.value == "FINISH" <==> u.finalResponse.Set?)
    && (u.finalResponse.Set? ==> u.finalResponse.value.Some?)
    && (u.status.Set? ==> u.status.value == "completed")
    && |u.messages| <= 1 && (forall m :: m in u.messages ==> m.Ai? && m.name == "Manager")
  }

  /** At the cap the Manager finishes, announcing the final response. */
  lemma CapTurn(s: TeamState, hasApiKey: bool, route: RouteCall, llmText: Option<string>)
    requires s.iterationCount >= s.maxIterations
    ensures var u := ManagerNode(s, hasApiKey, route, llmText);
      && TurnShape(u)
      && u.nextAgent.value == "FINISH" && u.status == Set("completed") && u.iterationCount.Keep?
      && u.messages == [Ai("Manager", u.finalResponse.value.value)]
  {
  }

  /** Below the cap, a failed workflow finishes silently with the failure text. */
  lemma FailedTurn(s: TeamState, hasApiKey: bool, route: RouteCall, llmText: Option<string>)
    requires s.iterationCount < s.maxIterations && s.status == "failed"
    ensures var u := ManagerNode(s, hasApiKey, route, llmText);
      && TurnShape(u)
      && u.nextAgent.value == "FINISH" && u.status == Set("completed") && u.iterationCount.Keep?
      && u.messages == [] && u.finalResponse == Set(Some(FailureText(s)))
  {
  }

  /** Below the cap, a workflow waiting for answers finishes and keeps its status. */
  lemma WaitingTurn(s: TeamState, hasApiKey: bool, route: RouteCall, llmText: Option<string>)
    requires s.iterationCount < s.maxIterations && s.status == "waiting_for_clarification"
    ensures var u := ManagerNode(s, hasApiKey, route, llmText);
      && TurnShape(u)
      && u.nextAgent.value == "FINISH" && u.status.Keep? && u.iterationCount.Keep?
      && u.messages == [Ai("Manager", u.finalResponse.value.value)]
  {
  }

  /** Once the guards pass, the turn counts once and says one thing. */
  lemma RoutingTurn(s: TeamState, hasApiKey: bool, route: RouteCall, llmText: Option<string>)
    requires s.iterationCount < s.maxIterations
    requires s.status != "failed" && s.status != "waiting_for_clarification"
    ensures var u := ManagerNode(s, hasApiKey, route, llmText);
      && TurnShape(u)
      && u.iterationCount == Set(s.iterationCount + 1) && |u.messages| == 1
      && (u.nextAgent.value == "FINISH" ==> u.status == Set("completed"))
  {
  }

  /** Once the guards pass, a turn without an API key is the fallback rule's. */
  lemma NoKeyTurn(s: TeamState, route: RouteCall, llmText: Option<string>)
    requires s.iterationCount < s.maxIterations
    requires s.status != "failed" && s.status != "waiting_for_clarification"
    ensures ManagerNode(s, false, route, llmText) == FallbackRouting(s, None)
  {
  }

  // ---------------------------------------------------------------------------
  // Properties of the fallback rule
  // ---------------------------------------------------------------------------

  /** The fallback table: each route is taken exactly when its condition
      holds, every fallback turn counts once, and only FINISH completes. */
  lemma FallbackTable(s: TeamState, error: Option<string>)
    ensures var u := FallbackRouting(s, error);
      && (u.nextAgent == Set("ba") <==> s.baResult.None?)
      && (u.nextAgent == Set("dev") <==> s.baResult.Some? && !DevSucceeded(s))
      && (u.nextAgent == Set("tester") <==> s.baResult.Some? && DevSucceeded(s) && s.testerResult.None?)
      && (u.nextAgent == Set("FINISH") <==> s.baResult.Some? && DevSucceeded(s) && s.testerResult.Some?)
      && u.iterationCount == Set(s.iterationCount + 1)
      && (u.status == Set("completed") <==> u.nextAgent == Set("FINISH"))
      && (u.status.Keep? <==> u.nextAgent != Set("FINISH"))
  {
  }

  /** The fallback decision depends only on which results exist and on the
      iteration count: two states that agree on those get the same route. */
  lemma FallbackDeterministic(s1: TeamState, s2: TeamState, e1: Option<string>, e2: Option<string>)
    requires s1.baResult.Some? == s2.baResult.Some?
    requires DevSucceeded(s1) == DevSucceeded(s2)
    requires s1.testerResult.Some? == s2.testerResult.Some?
    requires s1.iterationCount == s2.iterationCount
    ensures FallbackRouting(s1, e1).nextAgent == FallbackRouting(s2, e2).nextAgent
    ensures FallbackRouting(s1, e1).iterationCount == FallbackRouting(s2, e2).iterationCount
    ensures FallbackRouting(s1, e1).status == FallbackRouting(s2, e2).status
  {
    assert FallbackChoice(s1) == FallbackChoice(s2);
  }

  /** An error only annotates the fallback: the route, count, status and
      final response are those of the error-free fallback, and a worker
      route's message gains the note at its end. */
  lemma FallbackErrorOnlyAnnotates(s: TeamState, e: string)
    requires e != ""
    ensures var u, v := FallbackRouting(s, Some(e)), FallbackRouting(s, None);
      && u.nextAgent == v.nextAgent && u.iterationCount == v.iterationCount
      && u.status == v.status && u.finalResponse == v.finalResponse
      && (FallbackChoice(s) != Finish ==>
            u.messages == [Ai("Manager", v.messages[0].content + " (Note: LLM routing failed: " + e + ")")])
      && (FallbackChoice(s) == Finish ==> u.messages == v.messages)
  {
    var a := FallbackChoice(s);
    if a != Finish {
      NoteAppended(a, e);
    }
  }

  /** The note goes at the very end of the message. */
  lemma NoteAppended(a: Agent, e: string)
    requires e != ""
    ensures FallbackMessage(a, Some(e)) == FallbackMessage(a, None) + " (Note: LLM routing failed: " + e + ")"
  {
    var head := "Manager (Fallback): Routing to " + AgentName(a) + ". ";
    var note := " (Note: LLM routing failed: " + e + ")";
    assert ErrorNote(Some(e)) == note && ErrorNote(None) == "";
    AppendAtEnd(head, FallbackReasoning(a), note);
  }

  lemma AppendAtEnd(head: string, body: string, tail: string)
    ensures head + (body + tail) == head + (body + "") + tail
  {
  }

  /** The oracle path with an error falls back with the same route as
      having no key; only an unrecognised error is reported in the note. */
  lemma OracleErrorFallsBack(s: TeamState, route: RouteCall, llmText: Option<string>)
    requires s.iterationCount < s.maxIterations
    requires s.status != "failed" && s.status != "waiting_for_clarification"
    requires !route.Decided?
    ensures ManagerNode(s, true, route, llmText).nextAgent == ManagerNode(s, false, route, llmText).nextAgent
    ensures ManagerNode(s, true, route, llmText).iterationCount == Set(s.iterationCount + 1)
    ensures route.ValueErrorRaised? && Contains(route.msg, StructuredOutputMarker) ==>
      ManagerNode(s, true, route, llmText) == ManagerNode(s, false, route, llmText)
  {
    assert ManagerNode(s, true, route, llmText) == Routed(s, true, route, llmText);
    assert ManagerNode(s, false, route, llmText) == FallbackRouting(s, None);
    OracleErrorRoute(s, route, llmText);
  }

  /** With an API key, an oracle that raises leads to the fallback rule,
      noting the error unless it is the structured-output marker. */
  lemma OracleErrorRoute(s: TeamState, route: RouteCall, llmText: Option<string>)
    requires !route.Decided?
    ensures Routed(s, true, route, llmText).nextAgent == FallbackRouting(s, None).nextAgent
    ensures route.ValueErrorRaised? && Contains(route.msg, StructuredOutputMarker) ==>
      Routed(s, true, route, llmText) == FallbackRouting(s, None)
  {
    var e := route.msg;
    if route.ValueErrorRaised? && Contains(e, StructuredOutputMarker) {
    } else if e != "" {
      FallbackErrorOnlyAnnotates(s, e);
    } else {
      assert ErrorNote(Some(e)) == "";
    }
  }

  // ---------------------------------------------------------------------------
  // Properties of the final response
  // ---------------------------------------------------------------------------

  /** Without an API key the final response is the deterministic summary,
      whatever the summarising model would have said. */
  lemma FinalResponseWithoutKey(s: TeamState, t1: Option<string>, t2: Option<string>)
    ensures GenerateFinalResponse(s, false, t1) == GenerateFinalResponse(s, false, t2)
    ensures !AwaitsClarification(s) ==> GenerateFinalResponse(s, false, t1) == BuildSimpleResponse(s)
  {
    if AwaitsClarification(s) {
      ClarifyPathsAgree(s.clarifyingQuestions);
    }
  }

  lemma HeaderLine(h: string, lines: seq<string>)
    requires |lines| > 0
    ensures Join([h + "\n"] + lines, "\n") == h + "\n\n" + Join(lines, "\n")
  {
    JoinCons(h + "\n", lines, "\n");
    DoubleNewline(h, Join(lines, "\n"));
  }

  lemma DoubleNewline(h: string, body: string)
    ensures (h + "\n") + "\n" + body == h + "\n\n" + body
  {
  }

  /** The two ways of asking for clarification produce the same text. */
  lemma ClarifyPathsAgree(qs: seq<string>)
    requires |qs| > 0
    ensures Join([ClarifyHeader + "\n"] + Numbered(qs, 1), "\n") == ClarifyText(qs)
  {
    HeaderLine(ClarifyHeader, Numbered(qs, 1));
  }

  /** Each question appears verbatim in the clarification text, numbered
      from 1 in its original position. */
  lemma ClarifyListsEachQuestion(qs: seq<string>, i: nat)
    requires i < |qs|
    ensures Contains(ClarifyText(qs), NatToString(i + 1) + ". " + qs[i])
  {
    var body := Join(Numbered(qs, 1), "\n");
    JoinContainsPart(Numbered(qs, 1), "\n", i);
    var k := ContainsWitness(body, Numbered(qs, 1)[i]);
    var pre := ClarifyHeader + "\n\n";
    assert ClarifyText(qs) == pre + body;
    assert ClarifyText(qs)[|pre| + k..|pre| + k + |Numbered(qs, 1)[i]|] == Numbered(qs, 1)[i];
    ContainsAt(ClarifyText(qs), Numbered(qs, 1)[i], |pre| + k);
  }

  /** A failed workflow's final response names its error, whether or not
      an API key is configured. */
  lemma FailureResponse(s: TeamState, hasApiKey: bool, t: Option<string>)
    requires s.status == "failed"
    ensures GenerateFinalResponse(s, hasApiKey, t) == "Something went wrong: " + ErrorText(s)
    ensures s.errorMessage.Some? ==> Contains(GenerateFinalResponse(s, hasApiKey, t), s.errorMessage.value)
  {
    if s.errorMessage.Some? {
      ContainsInfix("Something went wrong: ", s.errorMessage.value, "");
      assert "Something went wrong: " + s.errorMessage.value + "" == FailureText(s);
    }
  }

  /** No clause applies exactly when nothing was produced. */
  lemma NoClauses(s: TeamState)
    ensures SimpleClauses(s) == [] <==>
      (s.baResult.None? && !(DevSucceeded(s) && |s.devResult.value.createdFiles| > 0)
       && !HasTests(s) && |s.artifacts| == 0)
  {
  }

  /** Every clause begins with 'B', 'C' or 'T', so their join never reads
      as the fixed text, which begins with 'W'. */
  lemma ClausesAreNotCompleted(s: TeamState)
    requires SimpleClauses(s) != []
    ensures Join(SimpleClauses(s), " ") != WorkflowCompleted
  {
    var parts := SimpleClauses(s);
    JoinStartsWithFirst(parts, " ");
    assert parts[0][0] in {'B', 'C', 'T'};
    assert WorkflowCompleted[0] == 'W';
  }

  /** The summary with no clause is the fixed text, and only then. */
  lemma SimpleResponseClauses(s: TeamState)
    requires !AwaitsClarification(s) && s.status != "failed"
    ensures BuildSimpleResponse(s) == WorkflowCompleted <==>
      (s.baResult.None? && !(DevSucceeded(s) && |s.devResult.value.createdFiles| > 0)
       && !HasTests(s) && |s.artifacts| == 0)
  {
    NoClauses(s);
    if SimpleClauses(s) != [] {
      ClausesAreNotCompleted(s);
    }
  }

  /** With every clause, the summary lists them in the fixed order,
      separated by single spaces. */
  lemma SimpleResponseAllClauses(s: TeamState)
    requires !AwaitsClarification(s) && s.status != "failed"
    requires s.baResult.Some? && DevSucceeded(s) && |s.devResult.value.createdFiles| > 0
    requires HasTests(s) && |s.artifacts| > 0
    ensures BuildSimpleResponse(s) ==
      "Business analysis complete." + " " + ("Created " + NatToString(|s.devResult.value.createdFiles|) + " file(s).")
      + " " + "Testing complete." + " " + ("Total: " + NatToString(|s.artifacts|) + " artifacts created.")
  {
    var parts := SimpleClauses(s);
    assert |parts| == 4;
    assert parts == [parts[0]] + ([parts[1]] + ([parts[2]] + [parts[3]]));
    JoinCons(parts[0], [parts[1]] + ([parts[2]] + [parts[3]]), " ");
    JoinCons(parts[1], [parts[2]] + [parts[3]], " ");
    JoinCons(parts[2], [parts[3]], " ");
  }

  // ---------------------------------------------------------------------------
  // The state summary given to the routing oracle
  // ---------------------------------------------------------------------------

  /** Doubles every brace so the template engine reads it literally. */
  function EscapeBraces(t: string): (r: string)
    ensures |r| >= |t|
    decreases |t|
  {
    if |t| == 0 then ""
    else if t[0] == '{' then "{{" + EscapeBraces(t[1..])
    else if t[0] == '}' then "}}" + EscapeBraces(t[1..])
    else [t[0]] + EscapeBraces(t[1..])
  }

  /** How the template engine reads an escaped text back. */
  function UnescapeBraces(t: string): string
    decreases |t|
  {
    if |t| >= 2 && t[..2] == "{{" then "{" + UnescapeBraces(t[2..])
    else if |t| >= 2 && t[..2] == "}}" then "}" + UnescapeBraces(t[2..])
    else if |t| == 0 then ""
    else [t[0]] + UnescapeBraces(t[1..])
  }

  /** The escaped title reads back as the title. */
  lemma {:induction false} UnescapeEscape(t: string)
    ensures UnescapeBraces(EscapeBraces(t)) == t
    decreases |t|
  {
    if |t| > 0 {
      UnescapeEscape(t[1..]);
      var e := EscapeBraces(t);
      if t[0] == '{' {
        assert e[..2] == "{{" && e[2..] == EscapeBraces(t[1..]);
      } else if t[0] == '}' {
        assert e[..2] == "}}" && e[2..] == EscapeBraces(t[1..]);
      } else {
        assert e[1..] == EscapeBraces(t[1..]);
        assert e[0] == t[0];
      }
      assert t == [t[0]] + t[1..];
    }
  }

  function DevSummaryLine(s: TeamState): string {
    if DevSucceeded(s) then
      "Dev Implementation: Complete - " + NatToString(|s.devResult.value.createdFiles|) + " files created"
    else if |s.artifacts| > 0 then
      "Dev Implementation: In progress - " + NatToString(|s.artifacts|) + " artifacts"
    else "Dev Implementation: Not started"
  }

  /** The five lines of `_format_state_summary`. */
  function SummaryLines(s: TeamState): seq<string> {
    [ "User Request: " + Take(s.userRequest, 100) + "...",
      if s.baResult.Some? then "BA Analysis: Complete - " + EscapeBraces(s.baResult.value.title)
      else "BA Analysis: Not started",
      DevSummaryLine(s),
      if HasTests(s) then "Tester Review: Complete - " + NatToString(|s.testerResult.value.tests|) + " test files"
      else "Tester Review: Not started",
      "Iteration: " + IntToString(s.iterationCount) + "/" + IntToString(s.maxIterations) ]
  }

  /** `_format_state_summary`: the lines joined by newlines, the request
      line first; every line occurs in the summary. */
  function FormatStateSummary(s: TeamState): (r: string)
    ensures StartsWith(r, "User Request: ")
    ensures forall k :: 0 <= k < |SummaryLines(s)| ==> Contains(r, SummaryLines(s)[k])
  {
    JoinStartsWithFirst(SummaryLines(s), "\n");
    JoinContainsEvery(SummaryLines(s), "\n");
    Join(SummaryLines(s), "\n")
  }


  /** The summary's promises: at most 100 characters of the request, the BA
      title read back intact from its escaped form, Dev reported complete
      exactly when its result succeeded and in progress exactly when it did
      not but artifacts exist. */
  lemma SummaryProps(s: TeamState)
    ensures var lines := SummaryLines(s);
      && |lines| == 5
      && StartsWith(lines[0], "User Request: ") && EndsWith(lines[0], "...")
      && |lines[0]| <= |"User Request: "| + 100 + 3
      && StartsWith(s.userRequest, lines[0][|"User Request: "|..|lines[0]| - 3])
      && (s.baResult.Some? ==>
            UnescapeBraces(lines[1][|"BA Analysis: Complete - "|..]) == s.baResult.value.title)
      && (StartsWith(lines[2], "Dev Implementation: Complete") <==> DevSucceeded(s))
      && (StartsWith(lines[2], "Dev Implementation: In progress") <==> !DevSucceeded(s) && |s.artifacts| > 0)
  {
    var lines := SummaryLines(s);
    var req := Take(s.userRequest, 100);
    assert lines[0][|"User Request: "|..|lines[0]| - 3] == req;
    if s.baResult.Some? {
      UnescapeEscape(s.baResult.value.title);
      assert lines[1][|"BA Analysis: Complete - "|..] == EscapeBraces(s.baResult.value.title);
    }
    var c := "Dev Implementation: Complete";
    var p := "Dev Implementation: In progress";
    if DevSucceeded(s) {
      assert lines[2][..|c|] == c;
      assert lines[2][..|p|] != p by { assert lines[2][20] != p[20]; }
    } else if |s.artifacts| > 0 {
      assert lines[2][..|p|] == p;
      assert lines[2][..|c|] != c by { assert lines[2][20] != c[20]; }
    } else {
      assert lines[2] == "Dev Implementation: Not started";
      assert !StartsWith(lines[2], c) by { assert lines[2][20] != c[20]; }
      assert !StartsWith(lines[2], p) by { assert lines[2][20] != p[20]; }
    }
  }
}
