/** The turn driver: it records the user's message in the caller's history, runs the graph once on
    a fresh state, and records the answer. */
module RunGraph {
  import opened Wrappers
  import opened AgentState
  import opened BuildGraph
  import Llm

  /** The caller's conversation history, a Python list that the driver appends to in place. */
  class History {
    var items: seq<Message>

    constructor()
      ensures items == []
    {
      items := [];
    }
  }

  /** The state the graph is invoked on: the question, the history, empty retrievals and every
      other field unset. */
  function InitialState(userInput: string, messages: seq<Message>): AgentState {
    AgentState(userInput, messages, None, Some([]), Some([]), None, None)
  }

  /** `run_graph(user_input, messages)`. A missing history is replaced by a fresh one; the user's
      message is appended to it as a one-element list before the graph runs, so the run never
      meets an empty history. The graph is invoked on `InitialState` of the question and the
      extended history, and its router sees that whole history. On success the answer is appended as an AI message and returned with
      the same history object. The only failure is a run that ends with no answer, which happens
      exactly when web results were graded insufficient: the AI message then has no content and is
      rejected, after the user's message was already appended. */
  method RunGraph(userInput: string, messages: History?, sv: Services)
    returns (r: Result<(string, History), Fault>, ghost init: AgentState, ghost run: AgentState,
             ghost trace: seq<Node>, ghost calls: seq<Llm.Call>)
    modifies messages
    ensures init == InitialState(userInput,
      (if messages == null then [] else old(messages.items)) + [Batch([Human(userInput)])])
    ensures calls != [] && calls[0] == Llm.Call(Llm.RouterPrompt, init.messages, [])
    ensures trace in {ChatPath, RagPath, FallbackPath, WebPath}
    ensures run.question == userInput && run.route.Some?
    ensures run.route == Some(Web) && run.enoughInfo == Some(false) ==> run.finalAnswer == init.finalAnswer
    ensures r.Err? <==> run.route == Some(Web) && run.enoughInfo == Some(false)
    ensures r.Err? ==> r.error == InvalidMessage
    ensures r.Err? && messages != null ==>
      messages.items == old(messages.items) + [Batch([Human(userInput)])]
    ensures r.Ok? ==> run.finalAnswer == Some(r.value.0)
    ensures r.Ok? && messages != null ==>
      && r.value.1 == messages
      && messages.items == old(messages.items) + [Batch([Human(userInput)]), Ai(Reply(r.value.0, []))]
    ensures r.Ok? && messages == null ==>
      && fresh(r.value.1)
      && r.value.1.items == [Batch([Human(userInput)]), Ai(Reply(r.value.0, []))]
  {
    var history: History;
    if messages == null {
      history := new History();
    } else {
      history := messages;
    }
    history.items := history.items + [Batch([Human(userInput)])];

    var start := InitialState(userInput, history.items);
    var result, path, log := Invoke(start, sv);
    init, trace, calls := start, path, log;
    // Invoke raises only on an empty history, and the history was just extended.
    var output := result.value;
    run := output;

    if output.finalAnswer.None? {
      return Err(InvalidMessage), init, run, trace, calls;
    }
    var answer := output.finalAnswer.value;
    history.items := history.items + [Ai(Reply(answer, []))];
    r := Ok((answer, history));
  }
}
