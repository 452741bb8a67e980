/** The retrieval node: one tool-calling request on the latest message, every requested tool
    call executed in order, and the results stored in `retrieved_docs`. */
module RetrieverAgent {
  import opened Wrappers
  import opened AgentState
  import opened Llm
  import RetrieverTool
  import TavilySearchTool

  /** Content of the tool message for a call naming an unbound tool. */
  const InvalidTool := "Invalid tool"

  /** `ToolMessage(tool_call_id, name, content)`. */
  datatype ToolMessage = ToolMessage(toolCallId: string, name: string, content: string)

  /** The tools bound to the model, in the order of `tools = [retriever_tool, tavily_search_tool]`. */
  datatype BoundTool = Retriever | Tavily

  const BoundToolNames: seq<string> := [RetrieverTool.Name, TavilySearchTool.Name]

  /** `{tool.name: tool for tool in tools}`. */
  const ToolsDict: map<string, BoundTool> :=
    map[RetrieverTool.Name := Retriever, TavilySearchTool.Name := Tavily]

  function InvokeTool(tool: BoundTool, query: string, index: RetrieverTool.Index,
                      provider: TavilySearchTool.Provider): string
  {
    match tool
    case Retriever => RetrieverTool.RetrieverTool(query, index)
    case Tavily => TavilySearchTool.TavilySearchTool(query, provider)
  }

  /** The content a tool call should produce: the named bound tool run on the call's query, or
      "Invalid tool" for any other name. */
  function ExpectedContent(t: ToolCall, index: RetrieverTool.Index, provider: TavilySearchTool.Provider): string {
    if t.name == RetrieverTool.Name then RetrieverTool.RetrieverTool(QueryArg(t), index)
    else if t.name == TavilySearchTool.Name then TavilySearchTool.TavilySearchTool(QueryArg(t), provider)
    else InvalidTool
  }

  /** Dispatch through the tools dictionary produces exactly the expected content. */
  lemma DispatchByName(t: ToolCall, index: RetrieverTool.Index, provider: TavilySearchTool.Provider)
    ensures t.name in ToolsDict ==> InvokeTool(ToolsDict[t.name], QueryArg(t), index, provider) == ExpectedContent(t, index, provider)
    ensures t.name !in ToolsDict ==> InvalidTool == ExpectedContent(t, index, provider)
  {
    assert RetrieverTool.Name != TavilySearchTool.Name;
  }

  /** `[tm.content for tm in tool_results]`. */
  function ContentsOf(results: seq<ToolMessage>): (cs: seq<string>)
    ensures |cs| == |results|
    ensures forall j :: 0 <= j < |results| ==> cs[j] == results[j].content
  {
    seq(|results|, j requires 0 <= j < |results| => results[j].content)
  }

  /** `retrieve_agent(state)`. Only the last history entry is sent, with both tools bound; an empty
      history raises. Each tool call yields exactly one result, in call order: a known tool is run
      on the call's "query" argument (default ""), an unknown name gives "Invalid tool".
      `retrieved_docs` is replaced by those results when there is at least one call, and is
      otherwise left as it was; no other field changes. */
  method RetrieveAgent(s: AgentState, llm: Model, index: RetrieverTool.Index,
                       provider: TavilySearchTool.Provider)
    returns (r: Result<AgentState, Fault>, calls: seq<Call>)
    ensures s.messages == [] ==> r == Err(IndexError) && calls == []
    ensures s.messages != [] ==>
      && r.Ok?
      && calls == [Call(RagToolPrompt, [s.messages[|s.messages| - 1]], BoundToolNames)]
      && r.value == s.(retrievedDocs := r.value.retrievedDocs)
    ensures s.messages != [] && llm(calls[0]).toolCalls == [] ==> r == Ok(s)
    ensures s.messages != [] && llm(calls[0]).toolCalls != [] ==>
      var tcs := llm(calls[0]).toolCalls;
      && r.value.retrievedDocs.Some?
      && |r.value.retrievedDocs.value| == |tcs|
      && forall j :: 0 <= j < |tcs| ==> r.value.retrievedDocs.value[j] == ExpectedContent(tcs[j], index, provider)
  {
    var last := LastMessage(s.messages);
    if last.Err? {
      return Err(last.error), [];
    }
    var call := Call(RagToolPrompt, [last.value], BoundToolNames);
    calls := [call];
    var response := llm(call);
    var toolCalls := response.toolCalls;

    var toolResults: seq<ToolMessage> := [];
    var i := 0;
    while i < |toolCalls|
      invariant 0 <= i <= |toolCalls|
      invariant |toolResults| == i
      invariant forall j :: 0 <= j < i ==>
        && toolResults[j].toolCallId == toolCalls[j].id
        && toolResults[j].content == ExpectedContent(toolCalls[j], index, provider)
    {
      var t := toolCalls[i];
      DispatchByName(t, index, provider);
      if t.name in ToolsDict {
        var result := InvokeTool(ToolsDict[t.name], QueryArg(t), index, provider);
        toolResults := toolResults + [ToolMessage(t.id, t.name, result)];
      } else {
        toolResults := toolResults + [ToolMessage(t.id, t.name, InvalidTool)];
      }
      i := i + 1;
    }

    var next := s;
    if toolResults != [] {
      next := next.(retrievedDocs := Some(ContentsOf(toolResults)));
    }
    r := Ok(next);
  }
}
