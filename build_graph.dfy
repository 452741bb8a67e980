/** The compiled graph: its nodes, entry point and edge tables, the transition function they
    define, and one run of the graph from an initial state to END. */
module BuildGraph {
  import opened Wrappers
  import opened AgentState
  import opened Llm
  import RouterAgent
  import ChatAgent
  import RetrieverAgent
  import WebAgent
  import GraderAgent
  import RetrieverTool
  import TavilySearchTool

  /** "router", "chat_agent", "retriever", "web_scraper", "grader_answer_generator" and END. */
  datatype Node = RouterNode | ChatAgentNode | RetrieverNode | WebScraperNode | GraderNode | End

  /** What a conditional edge reads: `s["route"]`, or `f"{s['route']}_{s['enough_info']}"`. */
  datatype Selector = RouteOf | RouteAndGrade

  datatype Edge = Direct(target: Node) | Conditional(selector: Selector, branches: map<string, Node>)

  datatype Graph = Graph(entry: Node, edges: map<Node, Edge>)

  const RouterBranches: map<string, Node> :=
    map["chat" := ChatAgentNode, "rag" := RetrieverNode, "web" := WebScraperNode]

  const GraderBranches: map<string, Node> :=
    map["rag_False" := WebScraperNode, "rag_True" := End, "web_False" := End, "web_True" := End]

  /** `build_graph()`. */
  function BuildGraph(): Graph {
    Graph(RouterNode, map[
      RouterNode := Conditional(RouteOf, RouterBranches),
      RetrieverNode := Direct(GraderNode),
      WebScraperNode := Direct(GraderNode),
      GraderNode := Conditional(RouteAndGrade, GraderBranches),
      ChatAgentNode := Direct(End)])
  }

  /** Python's `str()` of an optional route and of an optional boolean. */
  function RouteText(r: Option<Route>): string {
    match r
    case None => "None"
    case Some(route) => RouteName(route)
  }

  function GradeText(b: Option<bool>): string {
    match b
    case None => "None"
    case Some(true) => "True"
    case Some(false) => "False"
  }

  /** The key a conditional edge looks up. For `RouteOf` a missing route is the Python value
      `None`, which is no key of the map; its text "None" is not one either. */
  function Key(sel: Selector, s: AgentState): string {
    match sel
    case RouteOf => RouteText(s.route)
    case RouteAndGrade => RouteText(s.route) + "_" + GradeText(s.enoughInfo)
  }

  /** The node that follows `n` in state `s`; a key missing from a conditional map raises. */
  function Next(g: Graph, n: Node, s: AgentState): Result<Node, Fault>
    requires n in g.edges
  {
    match g.edges[n]
    case Direct(target) => Ok(target)
    case Conditional(sel, branches) =>
      var k := Key(sel, s);
      if k in branches then Ok(branches[k]) else Err(UnmappedKey(k))
  }

  /** Every node but END has an outgoing edge; END has none. */
  lemma EdgesComplete()
    ensures forall n :: n in BuildGraph().edges <==> n != End
  {
  }

  /** The fixed edges: retriever and web_scraper always go to the grading node, chat_agent to END. */
  lemma DirectEdges(s: AgentState)
    ensures Next(BuildGraph(), RetrieverNode, s) == Ok(GraderNode)
    ensures Next(BuildGraph(), WebScraperNode, s) == Ok(GraderNode)
    ensures Next(BuildGraph(), ChatAgentNode, s) == Ok(End)
  {
  }

  /** The router's table is complete: every route reaches its node. */
  lemma RouterTable(s: AgentState)
    requires s.route.Some?
    ensures Next(BuildGraph(), RouterNode, s) ==
      Ok(match s.route.value case Chat => ChatAgentNode case Rag => RetrieverNode case Web => WebScraperNode)
  {
    match s.route.value
    case Chat => assert Key(RouteOf, s) == "chat";
    case Rag => assert Key(RouteOf, s) == "rag";
    case Web => assert Key(RouteOf, s) == "web";
  }

  /** The grading node's table is complete for the keys the wired grader produces: a graded rag or
      web state always has a branch, and only insufficient rag goes back to web search. */
  lemma GraderTable(s: AgentState)
    requires s.route == Some(Rag) || s.route == Some(Web)
    requires s.enoughInfo.Some?
    ensures Next(BuildGraph(), GraderNode, s) ==
      Ok(if s.route == Some(Rag) && !s.enoughInfo.value then WebScraperNode else End)
  {
    var k := Key(RouteAndGrade, s);
    match (s.route.value, s.enoughInfo.value)
    case (Rag, true) => assert k == "rag_True";
    case (Rag, false) => assert k == "rag_False";
    case (Web, true) => assert k == "web_True";
    case (Web, false) => assert k == "web_False";
  }

  /** A web state whose grade is None, which is what the rag-only grader of
      agents/grader_answer_agent.py leaves on web, has no branch: the run would raise. */
  lemma UngradedWebUnmapped(s: AgentState)
    requires s.route == Some(Web) && s.enoughInfo == None
    ensures Next(BuildGraph(), GraderNode, s) == Err(UnmappedKey("web_None"))
  {
    assert Key(RouteAndGrade, s) == "web_None";
  }

  /** A grading node reached on a route that is neither rag nor web grades it "not enough", and
      that key ("None_False" or "chat_False") has no branch either. */
  lemma UngradedRouteUnmapped(s: AgentState)
    requires s.route != Some(Rag) && s.route != Some(Web) && s.enoughInfo == Some(false)
    ensures Next(BuildGraph(), GraderNode, s) == Err(UnmappedKey(RouteText(s.route) + "_False"))
  {
    match s.route
    case None =>
      var k := Key(RouteAndGrade, s);
      assert k == "None_False";
      assert k[0] == 'N';
      assert RouteText(s.route) + "_False" == "None_False";
    case Some(Chat) =>
      var k := Key(RouteAndGrade, s);
      assert k == "chat_False";
      assert k[0] == 'c' && |k| == 10;
      assert RouteText(s.route) + "_False" == "chat_False";
  }

  /** The external collaborators of one run: the chat model, the vector-store ranking and the
      web-search provider. */
  datatype Services = Services(llm: Model, index: RetrieverTool.Index, provider: TavilySearchTool.Provider)

  /** A measure that every transition of the graph decreases. */
  function Rank(n: Node, s: AgentState): nat {
    match n
    case RouterNode => 5
    case RetrieverNode => 4
    case GraderNode => if s.route == Some(Web) then 1 else 3
    case WebScraperNode => 2
    case ChatAgentNode => 1
    case End => 0
  }

  /** What one step guarantees when it does not raise: node `n` turned `s` into `t`, with the
      model calls `stepCalls`, and the edge out of `n` leads to `next`. */
  ghost predicate StepOk(n: Node, s: AgentState, t: AgentState, next: Node, stepCalls: seq<Call>) {
    && t.question == s.question
    && match n
       case RouterNode =>
         && stepCalls == [Call(RouterPrompt, s.messages, [])]
         && t == s.(route := t.route)
         && t.route.Some?
         && next == (match t.route.value
                     case Chat => ChatAgentNode case Rag => RetrieverNode case Web => WebScraperNode)
       case ChatAgentNode =>
         next == End && t.route == s.route && t.finalAnswer.Some?
       case RetrieverNode =>
         next == GraderNode && t == s.(retrievedDocs := t.retrievedDocs)
       case WebScraperNode =>
         next == GraderNode && t == s.(route := Some(Web), webRetrievals := t.webRetrievals)
       case GraderNode =>
         && t == s.(enoughInfo := t.enoughInfo, finalAnswer := t.finalAnswer)
         && t.enoughInfo.Some?
         && (t.enoughInfo == Some(true) ==> t.finalAnswer.Some?)
         && (t.enoughInfo == Some(false) ==> t.finalAnswer == s.finalAnswer)
         && ((s.route == Some(Rag) || s.route == Some(Web)) ==>
               next == if s.route == Some(Rag) && !t.enoughInfo.value then WebScraperNode else End)
       case End => false
  }

  /** One step of the run: execute node `n` on `s`, then follow its edge. The retriever raises on
      an empty history, and the grading node's edge raises on a route that is neither rag nor web,
      whose key has no branch; every other step succeeds. */
  method Step(n: Node, s: AgentState, sv: Services)
    returns (res: Result<AgentState, Fault>, next: Node, stepCalls: seq<Call>)
    requires n != End
    ensures res.Err? <==>
      || (n == RetrieverNode && s.messages == [])
      || (n == GraderNode && s.route != Some(Rag) && s.route != Some(Web))
    ensures res.Err? && n == RetrieverNode ==> res.error == IndexError && stepCalls == []
    ensures res.Err? && n == GraderNode ==>
      res.error == UnmappedKey(RouteText(s.route) + "_False") && stepCalls == []
    ensures res.Ok? ==> StepOk(n, s, res.value, next, stepCalls)
  {
    var graph := BuildGraph();
    var t := s;
    if n == RouterNode {
      t, stepCalls := RouterAgent.RouterAgent(s, sv.llm);
      RouterTable(t);
    } else if n == ChatAgentNode {
      t, stepCalls := ChatAgent.ChatAgent(s, sv.llm);
    } else if n == RetrieverNode {
      var result;
      result, stepCalls := RetrieverAgent.RetrieveAgent(s, sv.llm, sv.index, sv.provider);
      if result.Err? {
        return Err(result.error), End, stepCalls;
      }
      t := result.value;
    } else if n == WebScraperNode {
      t, stepCalls := WebAgent.WebAnswerAgent(s, sv.llm, sv.provider);
    } else {
      t, stepCalls := GraderAgent.UnifiedGraderAnswerAgent(s, sv.llm);
      if t.route == Some(Rag) || t.route == Some(Web) {
        GraderTable(t);
      } else {
        UngradedRouteUnmapped(t);
      }
    }
    DirectEdges(t);
    var edge := Next(graph, n, t);
    if edge.Err? {
      return Err(edge.error), End, stepCalls;
    }
    res, next := Ok(t), edge.value;
  }

  /** The four complete runs. */
  const ChatPath: seq<Node> := [RouterNode, ChatAgentNode]
  const RagPath: seq<Node> := [RouterNode, RetrieverNode, GraderNode]
  const FallbackPath: seq<Node> := [RouterNode, RetrieverNode, GraderNode, WebScraperNode, GraderNode]
  const WebPath: seq<Node> := [RouterNode, WebScraperNode, GraderNode]

  /** Where a run can be when it is about to execute `node`, having visited `trace` and made
      the model calls `calls`; at END, what the finished run has produced. */
  ghost predicate Stage(node: Node, trace: seq<Node>, calls: seq<Call>, s: AgentState, init: AgentState) {
    && s.question == init.question
    && (node != End ==> s.finalAnswer == init.finalAnswer && s.messages == init.messages)
    && (trace != [] ==> calls != [] && calls[0] == Call(RouterPrompt, init.messages, []))
    && match node
       case RouterNode => trace == [] && calls == [] && s == init
       case ChatAgentNode => trace == [RouterNode] && s.route == Some(Chat)
       case RetrieverNode => trace == [RouterNode] && s.route == Some(Rag)
       case WebScraperNode => trace == [RouterNode] || trace == [RouterNode, RetrieverNode, GraderNode]
       case GraderNode =>
         || (trace == [RouterNode, RetrieverNode] && s.route == Some(Rag))
         || ((trace == [RouterNode, WebScraperNode] || trace == [RouterNode, RetrieverNode, GraderNode, WebScraperNode])
             && s.route == Some(Web))
       case End =>
         || (trace == ChatPath && s.route == Some(Chat) && s.finalAnswer.Some?)
         || (trace == RagPath && s.route == Some(Rag) && s.enoughInfo == Some(true) && s.finalAnswer.Some?)
         || ((trace == FallbackPath || trace == WebPath) && s.route == Some(Web) && s.enoughInfo.Some?
             && (s.enoughInfo == Some(true) ==> s.finalAnswer.Some?)
             && (s.enoughInfo == Some(false) ==> s.finalAnswer == init.finalAnswer))
  }

  /** A step that does not raise moves the run from one stage to the next and lowers the rank. */
  lemma {:induction false} StepAdvances(node: Node, trace: seq<Node>, calls: seq<Call>, s: AgentState,
                                        init: AgentState, t: AgentState, next: Node, stepCalls: seq<Call>)
    requires node != End
    requires Stage(node, trace, calls, s, init)
    requires StepOk(node, s, t, next, stepCalls)
    ensures Stage(next, trace + [node], calls + stepCalls, t, init)
    ensures Rank(next, t) < Rank(node, s)
  {
    match node
    case RouterNode =>
      assert trace + [node] == [RouterNode];
    case ChatAgentNode =>
      assert trace + [node] == ChatPath;
    case RetrieverNode =>
      assert trace + [node] == [RouterNode, RetrieverNode];
    case WebScraperNode =>
      if trace == [RouterNode] {
        assert trace + [node] == [RouterNode, WebScraperNode];
      } else {
        assert trace + [node] == [RouterNode, RetrieverNode, GraderNode, WebScraperNode];
      }
    case GraderNode =>
      if s.route == Some(Rag) {
        assert trace + [node] == RagPath;
      } else if trace == [RouterNode, WebScraperNode] {
        assert trace + [node] == WebPath;
      } else {
        assert trace + [node] == FallbackPath;
      }
  }

  /** On each of the four paths web search runs at most once and the grading node at most twice. */
  lemma PathsBounded(trace: seq<Node>)
    requires trace in {ChatPath, RagPath, FallbackPath, WebPath}
    ensures multiset(trace)[WebScraperNode] <= 1 && multiset(trace)[GraderNode] <= 2
  {
  }

  /** `app.invoke(init)` for the graph of `BuildGraph()`, with every model call recorded.
      The run starts at the router and always ends. It follows one of four paths, so web search
      runs at most once and the grading node at most twice; after a fallback the route is web and no
      second fallback is possible. It raises only when the retriever finds an empty history.
      `final_answer` is set on every ending except one: a web grade of "not enough", which
      leaves it as it was in `init`. */
  method Invoke(init: AgentState, sv: Services)
    returns (r: Result<AgentState, Fault>, trace: seq<Node>, calls: seq<Call>)
    ensures trace != [] && trace[0] == BuildGraph().entry
    ensures calls != [] && calls[0] == Call(RouterPrompt, init.messages, [])
    ensures multiset(trace)[WebScraperNode] <= 1 && multiset(trace)[GraderNode] <= 2
    ensures r.Err? <==> init.messages == [] && trace == [RouterNode, RetrieverNode]
    ensures r.Err? ==> r.error == IndexError
    ensures r.Ok? ==> trace in {ChatPath, RagPath, FallbackPath, WebPath}
    ensures r.Ok? ==> r.value.question == init.question && r.value.route.Some?
    ensures r.Ok? && trace == ChatPath ==> r.value.route == Some(Chat) && r.value.finalAnswer.Some?
    ensures r.Ok? && trace == RagPath ==>
      r.value.route == Some(Rag) && r.value.enoughInfo == Some(true) && r.value.finalAnswer.Some?
    ensures r.Ok? && (trace == FallbackPath || trace == WebPath) ==>
      r.value.route == Some(Web) && r.value.enoughInfo.Some?
    ensures r.Ok? ==>
      if r.value.route == Some(Web) && r.value.enoughInfo == Some(false)
      then r.value.finalAnswer == init.finalAnswer
      else r.value.finalAnswer.Some?
  {
    var node := BuildGraph().entry;
    var s := init;
    trace, calls := [], [];
    while node != End
      invariant Stage(node, trace, calls, s, init)
      decreases Rank(node, s)
    {
      var result, next, stepCalls := Step(node, s, sv);
      if result.Err? {
        assert trace + [node] == [RouterNode, RetrieverNode];
        return Err(result.error), trace + [node], calls + stepCalls;
      }
      StepAdvances(node, trace, calls, s, init, result.value, next, stepCalls);
      trace, calls := trace + [node], calls + stepCalls;
      s, node := result.value, next;
    }
    PathsBounded(trace);
    if s.route == Some(Web) {
      assert s.enoughInfo.Some?;
      if s.enoughInfo.value {
        assert s.enoughInfo == Some(true);
      } else {
        assert s.enoughInfo == Some(false);
      }
    }
    r := Ok(s);
  }
}
