/** The other grader of the repository (not wired into the graph): it grades rag context only;
    on web it composes an answer without grading and clears `enough_info`. */
module GraderAnswerAgent {
  import opened Wrappers
  import opened PyText
  import opened AgentState
  import opened Llm
  import GraderAgent

  const NoWebInformation := "No relevant web information found."

  /** `unified_grader_answer_agent(state)` of agents/grader_answer_agent.py.
      On rag: an empty context sets `enough_info` false with no model call; otherwise
      `enough_info` is whether the grading reply is exactly "yes", and only then a second call
      composes `final_answer`. On web: `enough_info` is None on every exit; an empty context
      gives the fixed "No relevant web information found." with no model call, a non-empty one
      a single answering call whose stripped reply is the answer. Any other route: no change. */
  method UnifiedGraderAnswerAgent(s: AgentState, llm: Model) returns (s': AgentState, calls: seq<Call>)
    ensures s' == s.(enoughInfo := s'.enoughInfo, finalAnswer := s'.finalAnswer)
    ensures s.route != Some(Rag) && s.route != Some(Web) ==> s' == s && calls == []
    ensures s.route == Some(Rag) && s.retrievedDocs.GetOr([]) == [] ==>
      s' == s.(enoughInfo := Some(false)) && calls == []
    ensures s.route == Some(Rag) && s.retrievedDocs.GetOr([]) != [] ==>
      && |calls| >= 1
      && calls[0] == Call(GradePrompt(s.retrievedDocs.value, s.question), [], [])
      && s'.enoughInfo == Some(GraderAgent.IsYes(llm(calls[0]).content))
      && (!GraderAgent.IsYes(llm(calls[0]).content) ==> |calls| == 1 && s'.finalAnswer == s.finalAnswer)
      && (GraderAgent.IsYes(llm(calls[0]).content) ==>
            && |calls| == 2
            && calls[1] == Call(AnswerPrompt(s.retrievedDocs.value, s.question), [], [])
            && s'.finalAnswer == Some(Strip(llm(calls[1]).content)))
    ensures s.route == Some(Web) ==> s'.enoughInfo == None
    ensures s.route == Some(Web) && s.webRetrievals.GetOr([]) == [] ==>
      s'.finalAnswer == Some(NoWebInformation) && calls == []
    ensures s.route == Some(Web) && s.webRetrievals.GetOr([]) != [] ==>
      && calls == [Call(WebAnswerPrompt(s.webRetrievals.value, s.question), [], [])]
      && s'.finalAnswer == Some(Strip(llm(calls[0]).content))
  {
    if s.route == Some(Rag) {
      var contextList := s.retrievedDocs.GetOr([]);
      if contextList == [] {
        return s.(enoughInfo := Some(false)), [];
      }
      var gradeCall := Call(GradePrompt(contextList, s.question), [], []);
      var gradeResponse := llm(gradeCall);
      var enoughInfo := GraderAgent.IsYes(gradeResponse.content);
      s' := s.(enoughInfo := Some(enoughInfo));
      calls := [gradeCall];
      if !enoughInfo {
        return;
      }
      var answerCall := Call(AnswerPrompt(contextList, s.question), [], []);
      var finalResponse := llm(answerCall);
      s' := s'.(finalAnswer := Some(Strip(finalResponse.content)));
      calls := calls + [answerCall];
    } else if s.route == Some(Web) {
      s' := s.(enoughInfo := None);
      var contextList := s.webRetrievals.GetOr([]);
      if contextList == [] {
        s' := s'.(finalAnswer := Some(NoWebInformation));
        s' := s'.(enoughInfo := None);
        return s', [];
      }
      var answerCall := Call(WebAnswerPrompt(contextList, s.question), [], []);
      var finalResponse := llm(answerCall);
      s' := s'.(finalAnswer := Some(Strip(finalResponse.content)));
      calls := [answerCall];
    } else {
      return s, [];
    }
  }
}
