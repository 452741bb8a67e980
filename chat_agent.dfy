/** The chat node: one ungrounded call over the whole history; the reply is appended to the
    history and becomes the answer. */
module ChatAgent {
  import opened Wrappers
  import opened AgentState
  import opened Llm

  /** `chat_agent(state)`: the model sees the "friendly assistant" instruction followed by the
      entire history; the history grows by exactly the reply, at the end, and `final_answer` is
      the reply's text as returned (not stripped). Route, contexts and grade are untouched. */
  method ChatAgent(s: AgentState, llm: Model) returns (s': AgentState, calls: seq<Call>)
    ensures calls == [Call(ChatPrompt, s.messages, [])]
    ensures s' == s.(messages := s'.messages, finalAnswer := s'.finalAnswer)
    ensures |s'.messages| == |s.messages| + 1
    ensures s'.messages[..|s.messages|] == s.messages
    ensures s'.messages[|s.messages|] == Ai(llm(calls[0]))
    ensures s'.finalAnswer == Some(llm(calls[0]).content)
  {
    var call := Call(ChatPrompt, s.messages, []);
    var response := llm(call);
    s' := s.(messages := s.messages + [Ai(response)]);
    s' := s'.(finalAnswer := Some(response.content));
    calls := [call];
  }
}
