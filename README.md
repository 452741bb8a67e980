# Conversational turn engine of the tomato-disease assistant

This project models one conversational turn of the assistant in Dafny. The router classifies the
question as chat, rag (plant knowledge) or web. The retriever or the web agent then gathers context
through tool calls, and the grading node decides whether that context is sufficient and writes the
answer. When the rag context is insufficient, the turn falls back to web search once. The turn
driver appends the user's message and the answer to the caller's history.

Two small parts of the front end are modelled as well: the per-session store of the front end and
the most-frequent-label rule of the detector.

How the model is built:

- Every node of the graph is a method. It receives the `AgentState` record and returns the
  record the node hands back to the graph. It also returns the log of the language-model calls
  it made, so contracts can say "no model call" or "exactly two calls".
- External collaborators become parameters:
  - the language model is a total function from a call to a reply (`Llm.Model`);
  - the vector store is a ranking function (`RetrieverTool.Index`);
  - the web-search service is a function from query and result limit to an outcome
    (`TavilySearchTool.Provider`).
- The compiled graph is a transition function over its edge tables (`BuildGraph.Next`). One run
  is a loop that executes one node per step (`BuildGraph.Invoke`). Its termination measure
  (`BuildGraph.Rank`) shows that every run ends.
- Python's `str.strip()` (the full `isspace` set), `lower()`, `replace(c, "")` and `join` are
  written out in module `PyText`.

The router falls back to `chat` for an unrecognised reply (agents/router_agent.py:37-39).

The wired grader leaves no answer when web results are graded insufficient. `run_graph` then
builds `AIMessage(content=None)`, which message validation rejects. `RunGraph.RunGraph` models
this as the failure `InvalidMessage`, after the user's message has already been appended.

## Model

| member | source | states |
|---|---|---|
| AgentState.ParseRouteExact | agents/router_agent.py:37-39 | a normalised reply is accepted as a route exactly when it is that route's label, and every other string is rejected |
| PyText.StripPadded | agents/router_agent.py:34 | stripping removes exactly the surrounding white space of a padded value and nothing inside it |
| PyText.StripTrimmed | agents/router_agent.py:34 | the stripped text has no white space at either end and is no longer than the input |
| PyText.StripLeadingDrops | agents/router_agent.py:34 | the leading part removed is all white space, and what remains is a suffix that starts with a non-space character |
| PyText.StripTrailingDrops | agents/router_agent.py:34 | the trailing part removed is all white space, and what remains is a prefix that ends with a non-space character |
| PyText.Join | tools/tavily_search_tool.py:11 | joining no parts gives "", one part gives that part, and in general the parts plus separators in length, starting with the first part |
| PyText.JoinAppend | tools/retriever_tool.py:8 | joining one more part appends the separator and that part, so a join lists its parts in order with one separator between neighbours |
| RouterAgent.Normalise | agents/router_agent.py:34 | the normal form holds no blank, no newline and no capital letter, and has no surrounding white space |
| RouterAgent.NormaliseIdempotent | agents/router_agent.py:34 | normalising a normal form changes nothing |
| RouterAgent.NormalisePadded | agents/router_agent.py:34 | a label in any letter case surrounded by white space normalises to its lower-case form |
| RouterAgent.RouterExampleRag | agents/router_agent.py:34-41 | the reply " RAG\n" normalises to "rag" and is routed to rag |
| RouterAgent.RouterExampleRefusal | agents/router_agent.py:37-39 | the reply "I cannot classify this." matches no label, so it takes the default route |
| RouterAgent.RouterAgent | agents/router_agent.py:31-43 | one call over the instruction and the full history; the route is always set, to the label the reply normalises to or else to chat; no other field changes |
| RetrieverTool.TopK | core/faiss_setup.py:33 | the retriever returns the first min(k, n) passages of the ranking, with k = 5 |
| RetrieverTool.RetrieverTool | tools/retriever_tool.py:7-8 | the output is the top 5 passages of the ranking, in ranking order, joined by a blank line; no passage gives ""; otherwise it starts with the best passage |
| TavilySearchTool.TavilySearchTool | tools/tavily_search_tool.py:8-13 | the search asks for 3 results; contents are joined by a blank line; no results give "No web results found."; a failure gives "Web search failed: " and the message; the tool never raises |
| TavilySearchTool.EmptyOutputOnlyFromOneEmptyResult | tools/tavily_search_tool.py:8-13 | the output is "" only for a single result with empty content |
| RetrieverAgent.DispatchByName | agents/retriever_agent.py:47-56 | dispatch through the tools dictionary runs the tool the call names, and any other name gives "Invalid tool" |
| RetrieverAgent.RetrieveAgent | agents/retriever_agent.py:26-63 | only the last message is sent, with both tools bound; an empty history raises; one result per tool call, in order, on its "query" argument (default ""), "Invalid tool" for an unknown name; no call leaves `retrieved_docs` unchanged; nothing else changes |
| WebAgent.WebAnswerAgent | agents/web_agent.py:19-63 | route forced to web; the model sees only the question; every tool call runs the web search on its "query"; `web_retrievals` holds one output per call, in order, and is empty exactly when no call was made; nothing else changes |
| GraderAgent.IsYesPadded | agents/grader_agent.py:62 | "yes" in any letter case surrounded by white space is read as sufficient |
| GraderAgent.IsYesIsStrict | agents/grader_agent.py:62 | a sufficient reply is exactly three letters once stripped; "Yes, it does." is insufficient |
| GraderAgent.UnifiedGraderAnswerAgent | agents/grader_agent.py:16-90 | grades the current route's context; an ungraded route or empty context gives False without a call; otherwise the grade is the strict "yes" test; insufficient makes one call and leaves the answer; sufficient makes two and the answer is the stripped second reply; `enough_info` is never None afterwards |
| GraderAnswerAgent.UnifiedGraderAnswerAgent | agents/grader_answer_agent.py:19-106 | rag is graded as by the wired grader; on web `enough_info` is None on every exit, an empty list gives "No relevant web information found." without a call, otherwise one answering call; any other route leaves the state unchanged |
| ChatAgent.ChatAgent | agents/chat_agent.py:18-35 | one call over the instruction and the full history; the history grows by exactly the reply at its end; the answer is the unstripped reply; nothing else changes |
| BuildGraph.EdgesComplete | core/build_graph.py:14-47 | every node but END has an outgoing edge |
| BuildGraph.DirectEdges | core/build_graph.py:33-47 | the retriever and the web search always go to the grading node, and the chat node always ends |
| BuildGraph.RouterTable | core/build_graph.py:20-31 | chat, rag and web lead to the chat node, the retriever and the web search |
| BuildGraph.GraderTable | core/build_graph.py:36-45 | for a graded rag or web state the key is always mapped; only rag_False leads back to web search, and the other three keys end |
| BuildGraph.UngradedWebUnmapped | core/build_graph.py:36-45 | the key "web_None", which the variant grader leaves, has no branch, so the run would raise |
| BuildGraph.UngradedRouteUnmapped | core/build_graph.py:36-45 | a grading node reached on a route other than rag or web gives a key with no branch, so the run would raise |
| BuildGraph.Step | core/build_graph.py:14-47 | one node runs and its edge is followed; the retriever raises on an empty history and the grading edge raises on a route other than rag or web; otherwise the node's effect and the next node are as the tables say |
| BuildGraph.StepAdvances | core/build_graph.py:20-47 | each non-failing step moves the run to its next stage and lowers the termination measure |
| BuildGraph.Invoke | core/build_graph.py:11-51 | the run starts at the router and ends; it follows one of the four paths chat, rag, rag-then-web and web, so web search runs at most once and the grading node at most twice; it raises only on an empty history; the answer is set except after an insufficient web grade |
| RunGraph.RunGraph | core/run_graph.py:6-29 | the graph is invoked on the question, the extended history, no route, empty retrievals, no grade and no answer, and its router sees that history; a missing history is replaced by a fresh one; the history grows in place by the wrapped user message and the answer message, and earlier entries are kept; the returned answer is the last entry's content; a run ending without an answer fails as an invalid message |
| FrontendState.ExistingSessionId | frontend/state.py:9-11 | a truthy "sid" parameter is its own id, or the first element of a list |
| FrontendState.StoredIdIsExisting | frontend/state.py:9-15 | an id stored under "sid" is read back as the existing id, so a page refresh finds the same session |
| FrontendState.GetOrSetQuerySessionId | frontend/state.py:6-15 | an existing id is returned and the parameters are left alone; otherwise the fresh id is stored under "sid" and returned |
| FrontendState.PersistentStore.Load | frontend/state.py:24-26 | an id never saved loads as None, a saved one as its record |
| FrontendState.PersistentStore.Save | frontend/state.py:29-34 | loading after saving gives exactly the saved record, and other sessions are untouched |
| FrontendState.SessionState.InitState | frontend/state.py:37-52 | fills only the missing entries with their defaults and never overwrites, so a second call changes nothing |
| VisionInference.ArgMax | vision/inference.py:33-35 | the chosen candidate is one of them and has a count at least that of every other |
| VisionInference.DetectedDisease | vision/inference.py:33-37 | no detection gives "Healthy"; otherwise a detected label occurring at least as often as every other |
| VisionInference.UniqueMostFrequent | vision/inference.py:33-35 | a label detected strictly more often than every other is the one reported |
| VisionInference.LabelSetIsLabels | vision/inference.py:30 | the accumulated label set is exactly the set of the detections' labels, empty exactly when there is no detection |
| VisionInference.RunYoloInference | vision/inference.py:13-37 | one record per box, in box order, with its corners, confidence and label; a class id without a name raises; the reported disease is the most frequent label or "Healthy" |

## Left out

- The language model, its prompts and their wording: the model is an arbitrary function of the call, and a prompt is identified by its kind and the data it embeds.
- The FAISS index and the embeddings: the vector store is a ranking function. Index building, PDF loading and splitting in core/faiss_setup.py are not part of this model, except the retriever's k = 5.
- The web-search client: it is an arbitrary function from query and result limit to an outcome. An exception's message is an input string.
- The graph runtime and the `add_messages` reducer: each node's returned record is taken whole as the next state. The coercion of history entries by the reducer is not modelled, so the user's message stays a one-element list entry.
- Updates in place of the state dictionary inside a node: nodes take and return the record by value. Aliasing between the nodes' state and the caller's history list is not modelled; the graph's growth of its own copy of the history is not visible to the caller.
- `lower()` is modelled on ASCII letters only. No other character lowers to a letter of "chat", "rag", "web" or "yes", except the Kelvin sign, which lowers to "k".
- PyText.RemoveAll: its contract states the removed character is gone and every other character's count is kept, not that their order is kept.
- VisionInference.DetectedDisease: of labels with equal counts it picks the first detected. Python's `max` over a set picks by set iteration order, which is not modelled.
- Image reading, the YOLO model itself, box drawing and the output image file in vision/inference.py (lines 7-8 and 39-41): the detector's boxes and the label names are inputs. Floating-point coordinates and confidences are an abstract type carried through unchanged. `int(box.cls[0])` is taken as an already integral class id.
- uuid generation in the front end: the fresh id is an input.
- Streamlit itself: `st.query_params`, `st.session_state` and the cached store are plain objects. The page and its widgets are not modelled, nor is the HTTP layer.
- core/run_agent.py (a console input loop) and all `print` logging.
- The missing imports in agents/grader_agent.py and core/build_graph.py: the model follows the intended run-time behaviour.
