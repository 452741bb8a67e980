/** The record threaded through every node of one turn, and the messages it carries. */
module AgentState {
  import opened Wrappers

  /** A tool invocation requested by the language model: `{"id", "name", "args"}`. */
  datatype ToolCall = ToolCall(id: string, name: string, args: map<string, string>)

  /** The language model's reply: its text and the tool calls it asks for. */
  datatype Reply = Reply(content: string, toolCalls: seq<ToolCall>)

  /** One entry of the conversation history. `Batch` is a Python list stored as a single
      entry, which is what the turn driver appends for the user's message. */
  datatype Message =
    | System(content: string)
    | Human(content: string)
    | Ai(reply: Reply)
    | Batch(items: seq<Message>)

  /** `Literal["chat", "rag", "web"]`. */
  datatype Route = Chat | Rag | Web

  /** The TypedDict of the graph. `None` stands for a Python `None` value as well as for an
      absent key: every reader uses `state.get(...)`, which does not tell them apart. */
  datatype AgentState = AgentState(
    question: string,
    messages: seq<Message>,
    route: Option<Route>,
    retrievedDocs: Option<seq<string>>,
    webRetrievals: Option<seq<string>>,
    enoughInfo: Option<bool>,
    finalAnswer: Option<string>)

  /** The string value a route has in the Python state. */
  function RouteName(r: Route): string {
    match r
    case Chat => "chat"
    case Rag => "rag"
    case Web => "web"
  }

  /** Membership in `["chat", "rag", "web"]`, giving the route it names. */
  function ParseRoute(s: string): Option<Route> {
    if s == "chat" then Some(Chat)
    else if s == "rag" then Some(Rag)
    else if s == "web" then Some(Web)
    else None
  }

  /** A string names a route exactly when it is that route's value, so parsing and naming are
      inverse on the three labels and every other string is rejected. */
  lemma ParseRouteExact(s: string, r: Route)
    ensures ParseRoute(s) == Some(r) <==> s == RouteName(r)
  {
    if s == RouteName(r) {
      match r
      case Chat =>
      case Rag => assert s != "chat";
      case Web => assert s != "chat" && s != "rag";
    }
  }

  /** `state["messages"][-1]`, which raises on an empty history. */
  function LastMessage(messages: seq<Message>): Result<Message, Fault> {
    if messages == [] then Err(IndexError) else Ok(messages[|messages| - 1])
  }

  /** `t["args"].get("query", "")`. */
  function QueryArg(t: ToolCall): string {
    if "query" in t.args then t.args["query"] else ""
  }
}
