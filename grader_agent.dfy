/** The grading node wired into the graph: it grades the context of the current route, rag or web, with
    a strict yes/no question and composes the answer only when the grade is "yes". */
module GraderAgent {
  import opened Wrappers
  import opened PyText
  import opened AgentState
  import opened Llm

  /** `content.strip().lower() == "yes"`: the only reply read as "sufficient". */
  predicate IsYes(reply: string) {
    Lower(Strip(reply)) == "yes"
  }

  /** Any letter case of "yes", surrounded by any white space, is read as sufficient. */
  lemma IsYesPadded(w1: string, v: string, w2: string)
    requires AllSpace(w1) && AllSpace(w2) && Trimmed(v) && Lower(v) == "yes"
    ensures IsYes(w1 + v + w2)
  {
    StripPadded(w1, v, w2);
  }

  /** A sufficient reply is exactly three letters once stripped, so any reply longer than "yes"
      after stripping, such as "Yes, it does.", counts as insufficient. */
  lemma IsYesIsStrict(reply: string)
    ensures IsYes(reply) ==> |Strip(reply)| == 3
    ensures reply == "Yes, it does." ==> !IsYes(reply)
  {
    if reply == "Yes, it does." {
      assert reply[0] == 'Y' && reply[|reply| - 1] == '.';
      StripPadded([], reply, []);
      assert [] + reply + [] == reply;
    }
  }

  /** The context list graded on the current route; empty for a route that is not graded. The
      "no such key" default `[]` and a stored `None` are both empty (both are falsy in Python). */
  function ContextOf(s: AgentState): seq<string> {
    match s.route
    case Some(Rag) => s.retrievedDocs.GetOr([])
    case Some(Web) => s.webRetrievals.GetOr([])
    case _ => []
  }

  /** The grading node asks the model at all: a graded route with a non-empty context. */
  predicate Graded(s: AgentState) {
    (s.route == Some(Rag) || s.route == Some(Web)) && ContextOf(s) != []
  }

  /** `unified_grader_answer_agent(state)` of agents/grader_agent.py. `enough_info` is always set
      to a boolean: false without any model call for an ungraded route or an empty context,
      otherwise whether the grading reply is exactly "yes". Only when it is does a second call
      compose the answer, whose stripped text becomes `final_answer`; otherwise `final_answer`
      is left as it was. No other field changes. */
  method UnifiedGraderAnswerAgent(s: AgentState, llm: Model) returns (s': AgentState, calls: seq<Call>)
    ensures s' == s.(enoughInfo := s'.enoughInfo, finalAnswer := s'.finalAnswer)
    ensures s'.enoughInfo.Some?
    ensures !Graded(s) ==> s' == s.(enoughInfo := Some(false)) && calls == []
    ensures Graded(s) ==>
      && |calls| >= 1
      && calls[0] == Call(GradePrompt(ContextOf(s), s.question), [], [])
      && s'.enoughInfo == Some(IsYes(llm(calls[0]).content))
    ensures Graded(s) && !IsYes(llm(calls[0]).content) ==>
      |calls| == 1 && s'.finalAnswer == s.finalAnswer
    ensures Graded(s) && IsYes(llm(calls[0]).content) ==>
      && |calls| == 2
      && calls[1] == Call(AnswerPrompt(ContextOf(s), s.question), [], [])
      && s'.finalAnswer == Some(Strip(llm(calls[1]).content))
  {
    var contextList: seq<string>;
    if s.route == Some(Rag) {
      contextList := s.retrievedDocs.GetOr([]);
    } else if s.route == Some(Web) {
      contextList := s.webRetrievals.GetOr([]);
    } else {
      return s.(enoughInfo := Some(false)), [];
    }

    if contextList == [] {
      return s.(enoughInfo := Some(false)), [];
    }

    var gradeCall := Call(GradePrompt(contextList, s.question), [], []);
    var gradeResponse := llm(gradeCall);
    var enoughInfo := IsYes(gradeResponse.content);
    s' := s.(enoughInfo := Some(enoughInfo));
    calls := [gradeCall];

    if !enoughInfo {
      return;
    }

    var answerCall := Call(AnswerPrompt(contextList, s.question), [], []);
    var finalResponse := llm(answerCall);
    s' := s'.(finalAnswer := Some(Strip(finalResponse.content)));
    calls := calls + [answerCall];
  }
}
