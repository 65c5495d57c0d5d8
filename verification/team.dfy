/** The team graph: START leads to the Manager, the Manager's routing value
    picks a worker or END, and every worker hands back to the Manager. A run
    alternates Manager and worker turns, merging each node's update into the
    shared state before the next edge is taken. */
module Team {
  import opened Wrappers
  import opened Text
  import opened Schemas
  import opened State
  import opened Manager
  import opened Workers

  // ---------------------------------------------------------------------------
  // The graph
  // ---------------------------------------------------------------------------

  datatype Endpoint = Start | End | Node(name: string)

  /** A graph under construction: node names, static edges, and for each
      node with a conditional edge the map from routing value to target. */
  class StateGraph {
    var nodes: set<string>
    var edges: set<(Endpoint, Endpoint)>
    var branches: map<string, map<string, Endpoint>>

    constructor ()
      ensures nodes == {} && edges == {} && branches == map[]
    {
      nodes := {};
      edges := {};
      branches := map[];
    }

    method AddNode(name: string)
      modifies this
      ensures nodes == old(nodes) + {name}
      ensures edges == old(edges) && branches == old(branches)
    {
      nodes := nodes + {name};
    }

    method AddEdge(src: Endpoint, dst: Endpoint)
      modifies this
      ensures edges == old(edges) + {(src, dst)}
      ensures nodes == old(nodes) && branches == old(branches)
    {
      edges := edges + {(src, dst)};
    }

    method AddConditionalEdges(src: string, paths: map<string, Endpoint>)
      modifies this
      ensures branches == old(branches)[src := paths]
      ensures nodes == old(nodes) && edges == old(edges)
    {
      branches := branches[src := paths];
    }
  }

  const WorkerNames: set<string> := {"ba", "dev", "tester"}

  /** The Manager's path map: each worker's name leads to that worker, and
      FINISH leads to END. */
  function ManagerPaths(): (r: map<string, Endpoint>)
    ensures r.Keys == {"ba", "dev", "tester", "FINISH"}
    ensures forall k :: k in r ==> (r[k] == End <==> k == "FINISH")
    ensures forall k :: k in r && k != "FINISH" ==> r[k] == Node(k)
  {
    map["ba" := Node("ba"), "dev" := Node("dev"), "tester" := Node("tester"), "FINISH" := End]
  }

  function TeamEdges(): set<(Endpoint, Endpoint)> {
    {(Node("ba"), Node("manager")), (Node("dev"), Node("manager")),
     (Node("tester"), Node("manager")), (Start, Node("manager"))}
  }

  /** `build_team_graph`: four nodes, the hub-and-spoke edges, and one
      conditional edge out of the Manager. */
  method BuildTeamGraph() returns (g: StateGraph)
    ensures fresh(g)
    ensures g.nodes == {"manager"} + WorkerNames
    ensures g.edges == TeamEdges()
    ensures g.branches == map["manager" := ManagerPaths()]
  {
    g := new StateGraph();
    g.AddNode("manager");
    g.AddNode("ba");
    g.AddNode("dev");
    g.AddNode("tester");
    g.AddEdge(Node("ba"), Node("manager"));
    g.AddEdge(Node("dev"), Node("manager"));
    g.AddEdge(Node("tester"), Node("manager"));
    g.AddConditionalEdges("manager", ManagerPaths());
    g.AddEdge(Start, Node("manager"));
  }

  /** The shape of the team graph: START and every worker lead only to the
      Manager, and every routing value the Manager can produce has a target. */
  lemma HubAndSpoke()
    ensures forall e :: e in TeamEdges() ==> e.1 == Node("manager")
    ensures forall w :: w in WorkerNames ==> (Node(w), Node("manager")) in TeamEdges()
    ensures forall a :: IsRoute(a) ==> a in ManagerPaths()
  {
  }

  /** `route_from_manager`: the routing value, FINISH when absent. The
      state always carries the key, so this is the stored value. A valid
      routing value has a target in the path map, and only FINISH leads
      to END. */
  function RouteFromManager(s: TeamState): (r: string)
    ensures IsRoute(s.nextAgent) ==> r in ManagerPaths() && (ManagerPaths()[r] == End <==> r == "FINISH")
  {
    s.nextAgent
  }

  /** After any Manager turn the conditional edge finds a target. */
  lemma ManagerTurnHasTarget(s: TeamState, m: nat, env: Env)
    ensures RouteFromManager(AfterManager(s, m, env)) in ManagerPaths()
  {
    ManagerTurnStep(s, m, env);
  }

  /** The state `run_team_workflow` starts from: nothing done yet, and as
      many Manager turns before the cap as `max_iterations` says. */
  function InitialState(request: string, projectId: Option<string>, maxIterations: int): (r: TeamState)
    ensures r.iterationCount == 0 && r.status == "pending" && r.task.None?
    ensures r.baResult.None? && r.devResult.None? && r.testerResult.None? && r.artifacts == {}
    ensures r.messages == [Human(request)]
    ensures Budget(r) == if maxIterations > 0 then maxIterations else 0
  {
    TeamState(request, projectId, [Human(request)], "manager", None, None, None, None,
              {}, "pending", [], None, None, 0, maxIterations)
  }

  // ---------------------------------------------------------------------------
  // A run, as a function of the answers the outside world gives
  // ---------------------------------------------------------------------------

  /** Everything a run depends on besides the request: whether an API key
      is configured, and per turn the routing call's result, the summarising
      model's text, each worker's outcome, and the identifier a new task
      receives. Manager answers are indexed by Manager turn, worker answers
      by worker turn. */
  datatype Env = Env(
    hasApiKey: bool,
    route: nat -> RouteCall,
    finalText: nat -> Option<string>,
    ba: nat -> BaOutcome,
    dev: nat -> DevOutcome,
    tester: nat -> TesterOutcome,
    taskIds: nat -> string)

  function ManagerTurn(s: TeamState, m: nat, env: Env): Update {
    ManagerNode(s, env.hasApiKey, env.route(m), env.finalText(m))
  }

  /** The update the worker named `a` returns (its task write left out). */
  function WorkerTurn(s: TeamState, a: string, w: nat, env: Env): (u: Update)
    ensures u.iterationCount.Keep? && u.task.Keep? && u.nextAgent.Set?
    ensures |u.messages| == 1 && u.messages[0].Ai?
    ensures u.artifacts.Set? ==> s.artifacts <= u.artifacts.value
  {
    if a == "ba" then BaUpdate(s, env.ba(w)).(task := Keep)
    else if a == "dev" then DevCore(s, env.dev(w))
    else TesterUpdate(s, env.tester(w))
  }

  /** Manager turns left before the cap forces the end. */
  function Budget(s: TeamState): (b: nat)
    ensures b == 0 <==> s.iterationCount >= s.maxIterations
    ensures b > 0 ==> s.iterationCount + b == s.maxIterations
  {
    if s.iterationCount >= s.maxIterations then 0 else s.maxIterations - s.iterationCount
  }

  /** The final state, and the workers visited in order. */
  datatype Run = Run(final: TeamState, trace: seq<string>)

  /** A run from a Manager turn on state `s`, where `m` Manager turns and
      `w` worker turns have already happened. */
  function RunFrom(s: TeamState, m: nat, w: nat, env: Env): Run
    decreases Budget(s)
  {
    var s1 := Apply(s, ManagerTurn(s, m, env));
    if RouteFromManager(s1) == "FINISH" then Run(s1, [])
    else
      var a := RouteFromManager(s1);
      var s2 := Proj(Apply(s1, WorkerTurn(s1, a, w, env)));
      var r := RunFrom(s2, m + 1, w + 1, env);
      Run(r.final, [a] + r.trace)
  }

  // ---------------------------------------------------------------------------
  // Properties of every run
  // ---------------------------------------------------------------------------

  /** Every run ends in a Manager FINISH turn with a final response; the
      final status is "completed" or "waiting_for_clarification", never
      "failed"; at most `Budget(s)` workers run and the counter never passes
      the cap; artifacts and the message log only grow, and every worker
      turn adds one message. */
  lemma RunProps(s: TeamState, m: nat, w: nat, env: Env)
    ensures var r := RunFrom(s, m, w, env);
      && r.final.nextAgent == "FINISH" && r.final.finalResponse.Some?
      && (r.final.status == "completed" || r.final.status == "waiting_for_clarification")
      && |r.trace| <= Budget(s)
      && (forall i :: 0 <= i < |r.trace| ==> r.trace[i] in WorkerNames)
      && s.iterationCount + |r.trace| <= r.final.iterationCount <= s.iterationCount + |r.trace| + 1
      && r.final.iterationCount <= s.iterationCount + Budget(s)
      && s.artifacts <= r.final.artifacts
      && s.messages <= r.final.messages
      && |s.messages| + |r.trace| <= |r.final.messages|
      && r.final.userRequest == s.userRequest && r.final.projectId == s.projectId
      && r.final.maxIterations == s.maxIterations
  {
    RunEnds(s, m, w, env);
    RunCounts(s, m, w, env);
    RunGrows(s, m, w, env);
  }

  /** How a run ends, and which workers it visits. */
  lemma {:induction false} RunEnds(s: TeamState, m: nat, w: nat, env: Env)
    ensures var r := RunFrom(s, m, w, env);
      && r.final.nextAgent == "FINISH" && r.final.finalResponse.Some?
      && (r.final.status == "completed" || r.final.status == "waiting_for_clarification")
      && |r.trace| <= Budget(s)
      && (forall i :: 0 <= i < |r.trace| ==> r.trace[i] in WorkerNames)
    decreases Budget(s)
  {
    ManagerTurnStep(s, m, env);
    var s1 := AfterManager(s, m, env);
    if s1.nextAgent != "FINISH" {
      WorkerTurnStep(s1, s1.nextAgent, w, env);
      RunEnds(Round(s, m, w, env), m + 1, w + 1, env);
      RunStep(s, m, w, env);
    } else {
      assert RunFrom(s, m, w, env) == Run(s1, []);
    }
  }

  /** Each worker turn follows one counted Manager turn, and the counter
      stops at the cap. */
  lemma {:induction false} RunCounts(s: TeamState, m: nat, w: nat, env: Env)
    ensures var r := RunFrom(s, m, w, env);
      && s.iterationCount + |r.trace| <= r.final.iterationCount <= s.iterationCount + |r.trace| + 1
      && r.final.iterationCount <= s.iterationCount + Budget(s)
    decreases Budget(s)
  {
    ManagerTurnStep(s, m, env);
    var s1 := AfterManager(s, m, env);
    if s1.nextAgent != "FINISH" {
      WorkerTurnStep(s1, s1.nextAgent, w, env);
      RunCounts(Round(s, m, w, env), m + 1, w + 1, env);
      RunStep(s, m, w, env);
    } else {
      assert RunFrom(s, m, w, env) == Run(s1, []);
    }
  }

  /** Artifacts and the message log only grow, each worker turn adds a
      message, and the request, project and cap are never changed. */
  lemma {:induction false} RunGrows(s: TeamState, m: nat, w: nat, env: Env)
    ensures var r := RunFrom(s, m, w, env);
      && s.artifacts <= r.final.artifacts
      && s.messages <= r.final.messages
      && |s.messages| + |r.trace| <= |r.final.messages|
      && r.final.userRequest == s.userRequest && r.final.projectId == s.projectId
      && r.final.maxIterations == s.maxIterations
    decreases Budget(s)
  {
    ManagerTurnStep(s, m, env);
    var s1 := AfterManager(s, m, env);
    if s1.nextAgent != "FINISH" {
      WorkerTurnStep(s1, s1.nextAgent, w, env);
      var s2 := Round(s, m, w, env);
      RunGrows(s2, m + 1, w + 1, env);
      RunStep(s, m, w, env);
      assert s.messages <= s1.messages <= s2.messages;
    } else {
      assert RunFrom(s, m, w, env) == Run(s1, []);
    }
  }

  /** What one Manager turn does to the state, as the run needs it. */
  lemma ManagerTurnStep(s: TeamState, m: nat, env: Env)
    ensures var s1 := AfterManager(s, m, env);
      && IsRoute(s1.nextAgent)
      && (s1.nextAgent == "FINISH" ==>
            s1.finalResponse.Some?
            && (s1.status == "completed" || s1.status == "waiting_for_clarification")
            && s.iterationCount <= s1.iterationCount <= s.iterationCount + 1)
      && (s1.nextAgent != "FINISH" ==>
            s.iterationCount < s.maxIterations && s1.iterationCount == s.iterationCount + 1)
      && (s.iterationCount >= s.maxIterations ==> s1.iterationCount == s.iterationCount)
      && s1.artifacts == s.artifacts && s1.messages == s.messages + ManagerTurn(s, m, env).messages
      && |s1.messages| <= |s.messages| + 1
      && s1.userRequest == s.userRequest && s1.projectId == s.projectId
      && s1.maxIterations == s.maxIterations
  {
    ManagerNodeProps(s, env.hasApiKey, env.route(m), env.finalText(m));
  }

  /** What one worker turn does to the state, as the run needs it. */
  lemma WorkerTurnStep(s: TeamState, a: string, w: nat, env: Env)
    ensures var s2 := AfterWorker(s, a, w, env);
      && s2.iterationCount == s.iterationCount && s.artifacts <= s2.artifacts
      && s.messages <= s2.messages && |s2.messages| == |s.messages| + 1
      && s2.userRequest == s.userRequest && s2.projectId == s.projectId
      && s2.maxIterations == s.maxIterations
  {
  }

  /** A failed state ends the run at the next Manager turn (below the cap),
      reported as completed with the failure text. */
  lemma FailedEndsRun(s: TeamState, m: nat, w: nat, env: Env)
    requires s.status == "failed" && s.iterationCount < s.maxIterations
    ensures RunFrom(s, m, w, env).trace == []
    ensures RunFrom(s, m, w, env).final.status == "completed"
    ensures RunFrom(s, m, w, env).final.finalResponse == Some(FailureText(s))
    ensures RunFrom(s, m, w, env).final.messages == s.messages
  {
  }

  /** With an API key, a routing decision for a worker sends the run there. */
  lemma DecisionIsFollowed(s: TeamState, m: nat, w: nat, env: Env)
    requires env.hasApiKey && s.iterationCount < s.maxIterations
    requires s.status != "failed" && s.status != "waiting_for_clarification"
    requires env.route(m).Decided? && env.route(m).agent != Finish
    ensures var r := RunFrom(s, m, w, env);
      |r.trace| > 0 && r.trace[0] == AgentName(env.route(m).agent)
  {
  }

  /** `n` copies of `x`. */
  function Repeat(x: string, n: nat): (r: seq<string>)
    ensures |r| == n
    ensures forall i :: 0 <= i < n ==> r[i] == x
  {
    if n == 0 then [] else [x] + Repeat(x, n - 1)
  }

  /** Without an API key, a successful Dev turn whose files are all error
      reports (or that created none) leaves nothing to review: the Tester
      never stores a plan, the fallback keeps choosing it, and only the
      iteration cap ends the run. */
  lemma {:induction false} TesterStallsUntilCap(s: TeamState, m: nat, w: nat, env: Env)
    requires !env.hasApiKey
    requires s.baResult.Some? && DevSucceeded(s) && s.testerResult.None?
    requires |ReviewRefs(s.artifacts)| == 0
    requires s.status != "failed" && s.status != "waiting_for_clarification"
    ensures var r := RunFrom(s, m, w, env);
      && r.trace == Repeat("tester", Budget(s))
      && r.final.testerResult.None?
      && r.final.iterationCount == s.iterationCount + Budget(s)
      && r.final.status == "completed"
    decreases Budget(s)
  {
    if s.iterationCount < s.maxIterations {
      TesterRoundStalls(s, m, w, env);
      TesterStallsUntilCap(Round(s, m, w, env), m + 1, w + 1, env);
    } else {
      CapEndsRun(s, m, w, env);
    }
  }

  /** At the iteration cap the Manager finishes at once, reporting
      "completed" without counting a turn; no worker runs. */
  lemma CapEndsRun(s: TeamState, m: nat, w: nat, env: Env)
    requires s.iterationCount >= s.maxIterations
    ensures var r := RunFrom(s, m, w, env);
      && r.trace == [] && r.final.status == "completed"
      && r.final.iterationCount == s.iterationCount && r.final.testerResult == s.testerResult
  {
    ManagerNodeProps(s, env.hasApiKey, env.route(m), env.finalText(m));
  }

  /** One stalled round: the fallback picks the Tester, which finds nothing
      to review and leaves the state as it was, one turn further on. */
  lemma TesterRoundStalls(s: TeamState, m: nat, w: nat, env: Env)
    requires !env.hasApiKey && s.iterationCount < s.maxIterations
    requires s.baResult.Some? && DevSucceeded(s) && s.testerResult.None?
    requires |ReviewRefs(s.artifacts)| == 0
    requires s.status != "failed" && s.status != "waiting_for_clarification"
    ensures AfterManager(s, m, env).nextAgent == "tester"
    ensures var s2 := Round(s, m, w, env);
      && s2.artifacts == s.artifacts && s2.testerResult.None?
      && s2.baResult == s.baResult && s2.devResult == s.devResult && s2.status == s.status
      && Budget(s2) == Budget(s) - 1 && s2.iterationCount == s.iterationCount + 1
    ensures var r2 := RunFrom(Round(s, m, w, env), m + 1, w + 1, env);
      RunFrom(s, m, w, env) == Run(r2.final, ["tester"] + r2.trace)
  {
    FallbackTable(s, None);
    FallbackRoutes(s, m, env, Tester);
    RunStep(s, m, w, env);
  }

  /** The state after a Manager turn. */
  function AfterManager(s: TeamState, m: nat, env: Env): TeamState {
    Apply(s, ManagerTurn(s, m, env))
  }

  /** The state after the worker named `a` takes its turn. */
  function AfterWorker(s: TeamState, a: string, w: nat, env: Env): TeamState {
    Proj(Apply(s, WorkerTurn(s, a, w, env)))
  }

  /** The state after a Manager turn and the worker turn it routes to. */
  function Round(s: TeamState, m: nat, w: nat, env: Env): TeamState {
    var s1 := AfterManager(s, m, env);
    AfterWorker(s1, s1.nextAgent, w, env)
  }

  /** One routing turn and the worker turn it leads to. */
  lemma RunStep(s: TeamState, m: nat, w: nat, env: Env)
    requires AfterManager(s, m, env).nextAgent != "FINISH"
    ensures var r := RunFrom(Round(s, m, w, env), m + 1, w + 1, env);
      RunFrom(s, m, w, env) == Run(r.final, [AfterManager(s, m, env).nextAgent] + r.trace)
  {
  }

  /** A fallback turn that routes to `a`, from a state that can route. */
  lemma FallbackRoutes(s: TeamState, m: nat, env: Env, a: Agent)
    requires !env.hasApiKey && s.iterationCount < s.maxIterations
    requires s.status != "failed" && s.status != "waiting_for_clarification"
    requires FallbackChoice(s) == a
    ensures AfterManager(s, m, env).nextAgent == AgentName(a)
    ensures AfterManager(s, m, env) == Apply(s, FallbackRouting(s, None))
    ensures a != Finish ==> AfterManager(s, m, env).iterationCount == s.iterationCount + 1
  {
    FallbackTable(s, None);
  }

  /** First round of the happy path: the fallback picks BA, which completes. */
  lemma HappyBa(s: TeamState, env: Env)
    requires !env.hasApiKey && s.iterationCount < s.maxIterations && s.status == "pending"
    requires s.baResult.None? && s.devResult.None? && s.testerResult.None?
    requires env.ba(0).BaReturned? && env.ba(0).reply.response.Some?
    requires env.ba(0).reply.status != Some("error") && env.ba(0).reply.status != Some("clarify")
    ensures AfterManager(s, 0, env).nextAgent == "ba"
    ensures var s2 := Round(s, 0, 0, env);
      && s2.baResult.Some? && s2.devResult.None? && s2.testerResult.None?
      && s2.status == "pending" && s2.iterationCount == s.iterationCount + 1
      && s2.maxIterations == s.maxIterations
  {
    FallbackRoutes(s, 0, env, Ba);
  }

  /** Second round: the fallback picks Dev, which succeeds with a real file. */
  lemma HappyDev(s: TeamState, env: Env, x: string)
    requires !env.hasApiKey && s.iterationCount < s.maxIterations && s.status == "pending"
    requires s.baResult.Some? && s.devResult.None? && s.testerResult.None?
    requires env.dev(1).DevReturned? && env.dev(1).result.success
    requires x in env.dev(1).result.createdFiles && !StartsWith(x, ErrorPrefix)
    ensures AfterManager(s, 1, env).nextAgent == "dev"
    ensures var s4 := Round(s, 1, 1, env);
      && s4.baResult.Some? && s4.devResult == Some(env.dev(1).result) && s4.testerResult.None?
      && |ReviewRefs(s4.artifacts)| > 0
      && s4.status == "pending" && s4.iterationCount == s.iterationCount + 1
      && s4.maxIterations == s.maxIterations
  {
    FallbackRoutes(s, 1, env, Dev);
    var s3 := AfterManager(s, 1, env);
    var s4 := Round(s, 1, 1, env);
    assert x in DevCore(s3, env.dev(1)).artifacts.value;
    assert x in ReviewRefs(s4.artifacts);
  }

  /** Third round: the fallback picks the Tester, which returns a plan. */
  lemma HappyTester(s: TeamState, env: Env)
    requires !env.hasApiKey && s.iterationCount < s.maxIterations && s.status == "pending"
    requires s.baResult.Some? && DevSucceeded(s) && s.testerResult.None?
    requires |ReviewRefs(s.artifacts)| > 0
    requires env.tester(2).TesterReturned?
    ensures AfterManager(s, 2, env).nextAgent == "tester"
    ensures var s6 := Round(s, 2, 2, env);
      && s6.baResult.Some? && s6.devResult == s.devResult && s6.testerResult == Some(env.tester(2).plan)
      && s6.status == "pending" && s6.iterationCount == s.iterationCount + 1
      && s6.maxIterations == s.maxIterations
  {
    FallbackRoutes(s, 2, env, Tester);
  }

  /** Last round: everything is done, so the fallback finishes. */
  lemma HappyFinish(s: TeamState, env: Env)
    requires !env.hasApiKey && s.iterationCount < s.maxIterations && s.status == "pending"
    requires s.baResult.Some? && DevSucceeded(s) && s.testerResult.Some?
    ensures RunFrom(s, 3, 3, env) == Run(AfterManager(s, 3, env), [])
    ensures AfterManager(s, 3, env).status == "completed"
    ensures AfterManager(s, 3, env).iterationCount == s.iterationCount + 1
    ensures AfterManager(s, 3, env).testerResult == s.testerResult
    ensures AfterManager(s, 3, env).devResult == s.devResult
  {
    FallbackRoutes(s, 3, env, Finish);
    FallbackTable(s, None);
  }

  /** The Tester round and the finishing turn. */
  lemma HappyFromTester(s: TeamState, env: Env)
    requires !env.hasApiKey && s.iterationCount + 1 < s.maxIterations && s.status == "pending"
    requires s.baResult.Some? && DevSucceeded(s) && s.testerResult.None?
    requires |ReviewRefs(s.artifacts)| > 0
    requires env.tester(2).TesterReturned?
    ensures var r := RunFrom(s, 2, 2, env);
      && r.trace == ["tester"] && r.final.iterationCount == s.iterationCount + 2
      && r.final.status == "completed"
      && r.final.testerResult == Some(env.tester(2).plan) && r.final.devResult == s.devResult
  {
    HappyTester(s, env);
    HappyFinish(Round(s, 2, 2, env), env);
    RunStep(s, 2, 2, env);
  }

  /** The Dev round and everything after it. */
  lemma HappyFromDev(s: TeamState, env: Env, x: string)
    requires !env.hasApiKey && s.iterationCount + 2 < s.maxIterations && s.status == "pending"
    requires s.baResult.Some? && s.devResult.None? && s.testerResult.None?
    requires env.dev(1).DevReturned? && env.dev(1).result.success
    requires x in env.dev(1).result.createdFiles && !StartsWith(x, ErrorPrefix)
    requires env.tester(2).TesterReturned?
    ensures var r := RunFrom(s, 1, 1, env);
      && r.trace == ["dev", "tester"] && r.final.iterationCount == s.iterationCount + 3
      && r.final.status == "completed"
      && r.final.testerResult == Some(env.tester(2).plan)
      && r.final.devResult == Some(env.dev(1).result)
  {
    HappyDev(s, env, x);
    var s4 := Round(s, 1, 1, env);
    HappyFromTester(s4, env);
    RunStep(s, 1, 1, env);
    var r := RunFrom(s4, 2, 2, env);
    assert RunFrom(s, 1, 1, env) == Run(r.final, ["dev"] + r.trace);
    assert ["dev"] + ["tester"] == ["dev", "tester"];
  }

  /** The BA round and everything after it. */
  lemma HappyFromBa(s: TeamState, env: Env, x: string)
    requires !env.hasApiKey && s.iterationCount + 3 < s.maxIterations && s.status == "pending"
    requires s.baResult.None? && s.devResult.None? && s.testerResult.None?
    requires env.ba(0).BaReturned? && env.ba(0).reply.response.Some?
    requires env.ba(0).reply.status != Some("error") && env.ba(0).reply.status != Some("clarify")
    requires env.dev(1).DevReturned? && env.dev(1).result.success
    requires x in env.dev(1).result.createdFiles && !StartsWith(x, ErrorPrefix)
    requires env.tester(2).TesterReturned?
    ensures var r := RunFrom(s, 0, 0, env);
      && r.trace == ["ba", "dev", "tester"] && r.final.iterationCount == s.iterationCount + 4
      && r.final.status == "completed"
      && r.final.testerResult == Some(env.tester(2).plan)
      && r.final.devResult == Some(env.dev(1).result)
  {
    HappyBa(s, env);
    var s2 := Round(s, 0, 0, env);
    HappyFromDev(s2, env, x);
    RunStep(s, 0, 0, env);
    var r := RunFrom(s2, 1, 1, env);
    assert RunFrom(s, 0, 0, env) == Run(r.final, ["ba"] + r.trace);
    assert ["ba"] + ["dev", "tester"] == ["ba", "dev", "tester"];
  }

  /** Without an API key, when BA completes with an analysis, Dev succeeds
      with at least one real file and the Tester returns a plan, the run
      visits BA, Dev and Tester once each and completes after four Manager
      turns, provided the cap allows four. */
  lemma FallbackHappyPath(request: string, projectId: Option<string>, maxIterations: int, env: Env)
    requires !env.hasApiKey && maxIterations >= 4
    requires env.ba(0).BaReturned? && env.ba(0).reply.response.Some?
    requires env.ba(0).reply.status != Some("error") && env.ba(0).reply.status != Some("clarify")
    requires env.dev(1).DevReturned? && env.dev(1).result.success
    requires exists x :: x in env.dev(1).result.createdFiles && !StartsWith(x, ErrorPrefix)
    requires env.tester(2).TesterReturned?
    ensures var r := RunFrom(InitialState(request, projectId, maxIterations), 0, 0, env);
      && r.trace == ["ba", "dev", "tester"]
      && r.final.iterationCount == 4
      && r.final.status == "completed"
      && r.final.testerResult == Some(env.tester(2).plan)
      && r.final.devResult == Some(env.dev(1).result)
  {
    var x :| x in env.dev(1).result.createdFiles && !StartsWith(x, ErrorPrefix);
    HappyFromBa(InitialState(request, projectId, maxIterations), env, x);
  }

  // ---------------------------------------------------------------------------
  // The graph runtime's step limit
  // ---------------------------------------------------------------------------

  /** The recursion limit the graph runtime applies when it is invoked
      without a configuration: a run may execute at most this many nodes,
      one per super-step, and raises `GraphRecursionError` when another
      node is due after that. */
  const DefaultRecursionLimit: nat := 25

  /** The nodes a run executes: the Manager turn before every worker turn,
      the worker turns, and the final Manager turn. */
  function Steps(r: Run): nat {
    2 * |r.trace| + 1
  }

  /** Every worker turn costs two nodes, so a run needs at most twice its
      budget plus one. */
  lemma StepsWithinBudget(s: TeamState, m: nat, w: nat, env: Env)
    ensures Steps(RunFrom(s, m, w, env)) <= 2 * Budget(s) + 1
  {
    RunEnds(s, m, w, env);
  }

  /** With the default cap of 10, and with any cap up to 12, a run from the
      initial state fits within the default step limit. */
  lemma DefaultCapFitsLimit(request: string, projectId: Option<string>, maxIterations: int, env: Env)
    requires maxIterations <= 12
    ensures Steps(RunFrom(InitialState(request, projectId, maxIterations), 0, 0, env)) <= DefaultRecursionLimit
  {
    StepsWithinBudget(InitialState(request, projectId, maxIterations), 0, 0, env);
  }

  /** A stalled Tester loop spends the whole budget, two nodes per turn, so
      once more than 12 turns are left it needs more nodes than the default
      limit allows and the run raises the recursion error instead of
      completing. */
  lemma TesterStallHitsLimit(s: TeamState, m: nat, w: nat, env: Env)
    requires !env.hasApiKey
    requires s.baResult.Some? && DevSucceeded(s) && s.testerResult.None?
    requires |ReviewRefs(s.artifacts)| == 0
    requires s.status != "failed" && s.status != "waiting_for_clarification"
    ensures Steps(RunFrom(s, m, w, env)) == 2 * Budget(s) + 1
    ensures Budget(s) > 12 ==> Steps(RunFrom(s, m, w, env)) > DefaultRecursionLimit
  {
    TesterStallsUntilCap(s, m, w, env);
  }

  // ---------------------------------------------------------------------------
  // The run itself
  // ---------------------------------------------------------------------------

  /** Dropping the `Task` reference does not change a Manager turn. */
  lemma ManagerIgnoresTask(s: TeamState, m: nat, env: Env)
    ensures ManagerTurn(Proj(s), m, env) == ManagerTurn(s, m, env)
  {
    var p := Proj(s);
    if s.iterationCount >= s.maxIterations || s.status == "failed" || s.status == "waiting_for_clarification" {
      FinalResponseIgnoresTask(s, env.hasApiKey, env.finalText(m));
    } else {
      RoutedIgnoresTask(s, env.hasApiKey, env.route(m), env.finalText(m));
      assert ManagerTurn(p, m, env) == Routed(p, env.hasApiKey, env.route(m), env.finalText(m));
      assert ManagerTurn(s, m, env) == Routed(s, env.hasApiKey, env.route(m), env.finalText(m));
    }
  }

  lemma RoutedIgnoresTask(s: TeamState, hasApiKey: bool, route: RouteCall, llmText: Option<string>)
    ensures Routed(Proj(s), hasApiKey, route, llmText) == Routed(s, hasApiKey, route, llmText)
  {
    if !hasApiKey {
      FallbackIgnoresTask(s, None);
    } else {
      match route
      case Decided(a, reasoning) =>
        DecidedIgnoresTask(s, a, reasoning, llmText);
      case ValueErrorRaised(msg) =>
        FallbackIgnoresTask(s, None);
        FallbackIgnoresTask(s, Some(msg));
      case Raised(msg) =>
        FallbackIgnoresTask(s, Some(msg));
    }
  }

  lemma DecidedIgnoresTask(s: TeamState, a: Agent, reasoning: string, llmText: Option<string>)
    ensures Routed(Proj(s), true, Decided(a, reasoning), llmText)
         == Routed(s, true, Decided(a, reasoning), llmText)
  {
    FinalResponseIgnoresTask(s, true, llmText);
  }

  lemma FinalResponseIgnoresTask(s: TeamState, hasApiKey: bool, llmText: Option<string>)
    ensures GenerateFinalResponse(Proj(s), hasApiKey, llmText) == GenerateFinalResponse(s, hasApiKey, llmText)
  {
    SimpleResponseIgnoresTask(s);
  }

  lemma SimpleResponseIgnoresTask(s: TeamState)
    ensures BuildSimpleResponse(Proj(s)) == BuildSimpleResponse(s)
  {
    assert SimpleClauses(Proj(s)) == SimpleClauses(s);
  }

  lemma FallbackIgnoresTask(s: TeamState, e: Option<string>)
    ensures FallbackRouting(Proj(s), e) == FallbackRouting(s, e)
  {
    SimpleResponseIgnoresTask(s);
    assert FallbackChoice(Proj(s)) == FallbackChoice(s);
  }

  /** Dropping the `Task` reference does not change a worker turn. */
  lemma WorkerIgnoresTask(s: TeamState, a: string, w: nat, env: Env)
    ensures WorkerTurn(Proj(s), a, w, env) == WorkerTurn(s, a, w, env)
  {
  }

  /** Projection commutes with merging, once the `Task` write is dropped. */
  lemma ProjApply(s: TeamState, u: Update)
    ensures Proj(Apply(s, u)) == Apply(Proj(s), u.(task := Keep))
  {
  }

  /** A Manager turn on the full state agrees with the run on its
      projection: it leaves the `Task` and the Dev result alone, and either
      ends the run with one node or leaves a worker turn and the rest of the
      run to go. */
  lemma ManagerStep(s: TeamState, m: nat, w: nat, env: Env)
    ensures var r := RunFrom(Proj(s), m, w, env);
      var s1 := AfterManager(s, m, env);
      && IsRoute(s1.nextAgent)
      && s1.task == s.task && s1.devResult == s.devResult
      && (s1.nextAgent == "FINISH" ==> Proj(s1) == r.final && Steps(r) == 1)
      && (s1.nextAgent != "FINISH" ==>
            var r2 := RunFrom(AfterWorker(Proj(s1), s1.nextAgent, w, env), m + 1, w + 1, env);
            s1.nextAgent in WorkerNames && r2.final == r.final && Steps(r) == Steps(r2) + 2)
  {
    ManagerIgnoresTask(s, m, env);
    ProjApply(s, ManagerTurn(s, m, env));
    ManagerTurnStep(s, m, env);
  }

  /** A worker turn on the full state agrees with the run on its projection. */
  lemma WorkerStep(s: TeamState, u: Update, a: string, w: nat, env: Env)
    requires u.(task := Keep) == WorkerTurn(s, a, w, env)
    ensures Proj(Apply(s, u)) == AfterWorker(Proj(s), a, w, env)
    ensures Budget(Apply(s, u)) == Budget(s)
  {
    WorkerIgnoresTask(s, a, w, env);
    ProjApply(s, u);
    ProjApply(Proj(s), WorkerTurn(Proj(s), a, w, env));
  }

  /** The shared `Task` records the files of a successful implementation:
      once Dev has succeeded, the state holds a task whose artifacts are
      exactly the valid files Dev created. */
  predicate TaskTracksDev(s: TeamState)
    reads if s.task.Some? then {s.task.value} else {}
  {
    DevSucceeded(s) ==>
      s.task.Some? && s.task.value.artifacts == ValidFiles(s.devResult.value.createdFiles)
  }

  /** The worker node named `name`: BA and Dev may update the shared task
      in place, and Dev may create one. */
  method WorkerNode(s: TeamState, name: string, w: nat, env: Env) returns (u: Update)
    requires TaskTracksDev(s)
    modifies if s.task.Some? then {s.task.value} else {}
    ensures u.(task := Keep) == WorkerTurn(s, name, w, env)
    ensures Apply(s, u).task.Some? ==> Apply(s, u).task == s.task || fresh(Apply(s, u).task.value)
    ensures TaskTracksDev(Apply(s, u))
  {
    if name == "ba" {
      u := BaNode(s, env.ba(w));
      assert u.task.Keep? || u.task == Set(s.task);
    } else if name == "dev" {
      var t: Task;
      u, t := DevNode(s, env.dev(w), env.taskIds(w));
      assert u.devResult.Set? ==>
        u.task == Set(Some(t)) && t.artifacts == ValidFiles(u.devResult.value.value.createdFiles);
    } else {
      u := TesterUpdate(s, env.tester(w));
    }
  }

  /** The Manager node and the conditional edge after it: the next state,
      where the path map sends the run, and, when that is a worker, the rest
      of the specification run after that worker's turn. */
  method ManagerNodeEdge(s: TeamState, m: nat, w: nat, env: Env, paths: map<string, Endpoint>)
    returns (s1: TeamState, at: Endpoint, ghost rest: Run)
    requires paths == ManagerPaths()
    ensures s1 == AfterManager(s, m, env)
    ensures s1.task == s.task && s1.devResult == s.devResult
    ensures at == End || (at == Node(s1.nextAgent) && s1.nextAgent in WorkerNames)
    ensures at == End ==>
      Proj(s1) == RunFrom(Proj(s), m, w, env).final && Steps(RunFrom(Proj(s), m, w, env)) == 1
    ensures at != End ==>
      && rest == RunFrom(AfterWorker(Proj(s1), s1.nextAgent, w, env), m + 1, w + 1, env)
      && rest.final == RunFrom(Proj(s), m, w, env).final
      && Steps(RunFrom(Proj(s), m, w, env)) == Steps(rest) + 2
  {
    ManagerStep(s, m, w, env);
    s1 := AfterManager(s, m, env);
    at := paths[RouteFromManager(s1)];
    rest := RunFrom(AfterWorker(Proj(s1), s1.nextAgent, w, env), m + 1, w + 1, env);
  }

  /** One pass from the Manager with `left` node executions to spare, where
      `rest` is the specification run from this Manager turn: its turn,
      then, unless the path map sends the run to END, the worker turn it
      routes to and the static edge back, provided a step is left for it.
      Returns where the run stands next, the steps still left, and the
      specification run from the next Manager turn; a worker endpoint with
      no step left is where the runtime raises. */
  method TeamRound(s: TeamState, m: nat, w: nat, env: Env, paths: map<string, Endpoint>, left: nat,
                   ghost rest: Run)
    returns (s': TeamState, at: Endpoint, left': nat, ghost rest': Run)
    requires paths == ManagerPaths() && left > 0
    requires rest == RunFrom(Proj(s), m, w, env)
    requires TaskTracksDev(s)
    modifies if s.task.Some? then {s.task.value} else {}
    ensures left' < left
    ensures at == End ==> Proj(s') == rest.final && Steps(rest) == left - left'
    ensures at == Node("manager") ==>
      && rest' == RunFrom(Proj(s'), m + 1, w + 1, env)
      && rest'.final == rest.final
      && Steps(rest) == left - left' + Steps(rest')
    ensures at != End && at != Node("manager") ==> left' == 0 && Steps(rest) > left
    ensures s'.task.Some? ==> s'.task == s.task || fresh(s'.task.value)
    ensures TaskTracksDev(s')
  {
    s', at, rest' := ManagerNodeEdge(s, m, w, env, paths);
    left' := left - 1;
    if at != End && left' > 0 {
      var name := at.name;
      var u := WorkerNode(s', name, w, env);
      WorkerStep(s', u, name, w, env);
      s' := Apply(s', u);
      left' := left' - 1;
      at := Node("manager");
    }
  }

  /** The runtime's loop over super-steps from START: one node per step,
      until END, or until the default step limit is spent with a node still
      due (`at` is then not `End`). The `Task` objects the workers create and
      update are shared through the state. */
  method Drive(s0: TeamState, env: Env, paths: map<string, Endpoint>) returns (s: TeamState, at: Endpoint)
    requires paths == ManagerPaths()
    requires s0.task.None? && !DevSucceeded(s0)
    ensures at == End <==> Steps(RunFrom(s0, 0, 0, env)) <= DefaultRecursionLimit
    ensures at == End ==> Proj(s) == RunFrom(s0, 0, 0, env).final
    ensures s.task.Some? ==> fresh(s.task.value)
    ensures TaskTracksDev(s)
  {
    s := s0;
    assert Proj(s) == s0;
    ghost var rest := RunFrom(s0, 0, 0, env);
    ghost var total := Steps(rest);
    ghost var goal := rest.final;
    var m: nat, w: nat := 0, 0;
    at := Node("manager");
    var left := DefaultRecursionLimit;
    while at == Node("manager") && left > 0
      invariant left <= DefaultRecursionLimit
      invariant at == Node("manager") ==>
        rest == RunFrom(Proj(s), m, w, env) && rest.final == goal
        && total == DefaultRecursionLimit - left + Steps(rest)
      invariant at == End ==> Proj(s) == goal && total <= DefaultRecursionLimit
      invariant at != End && at != Node("manager") ==> total > DefaultRecursionLimit
      invariant s.task.Some? ==> fresh(s.task.value)
      invariant TaskTracksDev(s)
      decreases left
    {
      s, at, left, rest := TeamRound(s, m, w, env, paths, left, rest);
      m, w := m + 1, w + 1;
    }
  }

  /** `graph.ainvoke` on a state that holds no `Task` yet: the final state
      when the run ends within the default step limit, and `None` where the
      runtime raises its recursion error. */
  method Invoke(g: StateGraph, s0: TeamState, env: Env) returns (final: Option<TeamState>)
    requires g.branches == map["manager" := ManagerPaths()]
    requires s0.task.None? && !DevSucceeded(s0)
    ensures final.Some? <==> Steps(RunFrom(s0, 0, 0, env)) <= DefaultRecursionLimit
    ensures final.Some? ==> Proj(final.value) == RunFrom(s0, 0, 0, env).final
    ensures final.Some? && final.value.task.Some? ==> fresh(final.value.task.value)
    ensures final.Some? ==> TaskTracksDev(final.value)
  {
    var s, at := Drive(s0, env, g.branches["manager"]);
    final := if at == End then Some(s) else None;
  }

  /** `run_team_workflow`: builds the graph and the initial state and
      invokes the graph on it without a configuration, so with the default
      step limit; nothing catches the recursion error (`None`). */
  method RunTeamWorkflow(request: string, projectId: Option<string>, maxIterations: int, env: Env)
    returns (final: Option<TeamState>)
    ensures final.Some? <==>
      Steps(RunFrom(InitialState(request, projectId, maxIterations), 0, 0, env)) <= DefaultRecursionLimit
    ensures final.Some? ==>
      Proj(final.value) == RunFrom(InitialState(request, projectId, maxIterations), 0, 0, env).final
    ensures maxIterations <= 12 ==> final.Some?
    ensures final.Some? && final.value.task.Some? ==> fresh(final.value.task.value)
    ensures final.Some? ==> TaskTracksDev(final.value)
  {
    var g := BuildTeamGraph();
    var s := InitialState(request, projectId, maxIterations);
    final := Invoke(g, s, env);
    if maxIterations <= 12 {
      DefaultCapFitsLimit(request, projectId, maxIterations, env);
    }
  }
}
