/** The web node: the route is forced to "web", one tool-calling request on the question alone,
    and every requested call answered by the web-search tool. */
module WebAgent {
  import opened Wrappers
  import opened AgentState
  import opened Llm
  import TavilySearchTool

  /** `web_answer_agent(state)`. The model sees only the question, with the search tool bound.
      Every tool call, whatever tool it names, runs the search on its "query" argument (default ""),
      and `web_retrievals` becomes the outputs in call order; `route` is set to web and nothing
      else changes. */
  method WebAnswerAgent(s: AgentState, llm: Model, provider: TavilySearchTool.Provider)
    returns (s': AgentState, calls: seq<Call>)
    ensures calls == [Call(WebToolPrompt, [Human(s.question)], [TavilySearchTool.Name])]
    ensures s' == s.(route := Some(Web), webRetrievals := s'.webRetrievals)
    ensures s'.webRetrievals.Some?
    ensures var tcs := llm(calls[0]).toolCalls;
      && |s'.webRetrievals.value| == |tcs|
      && forall j :: 0 <= j < |tcs| ==>
           s'.webRetrievals.value[j] == TavilySearchTool.TavilySearchTool(QueryArg(tcs[j]), provider)
  {
    s' := s.(route := Some(Web));
    var call := Call(WebToolPrompt, [Human(s.question)], [TavilySearchTool.Name]);
    calls := [call];
    var response := llm(call);
    var toolCalls := response.toolCalls;

    var toolOutputs: seq<string> := [];
    var i := 0;
    while i < |toolCalls|
      invariant 0 <= i <= |toolCalls|
      invariant |toolOutputs| == i
      invariant forall j :: 0 <= j < i ==>
        toolOutputs[j] == TavilySearchTool.TavilySearchTool(QueryArg(toolCalls[j]), provider)
    {
      var query := QueryArg(toolCalls[i]);
      var result := TavilySearchTool.TavilySearchTool(query, provider);
      toolOutputs := toolOutputs + [result];
      i := i + 1;
    }

    s' := s'.(webRetrievals := Some(toolOutputs));
  }
}
