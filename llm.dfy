/** The boundary to the chat model. A call is identified by the kind of system prompt it starts
    with (the wording is not modelled), the messages that follow it and the tools bound to it;
    the model itself is any function from calls to replies. */
module Llm {
  import opened AgentState

  datatype Instruction =
    | RouterPrompt                                    // intent classification
    | ChatPrompt                                      // "friendly assistant"
    | RagToolPrompt                                   // retrieval with tool calling
    | WebToolPrompt                                   // web search with tool calling
    | GradePrompt(context: seq<string>, question: string)
    | AnswerPrompt(context: seq<string>, question: string)
    | WebAnswerPrompt(context: seq<string>, question: string)

  /** `llm.invoke([SystemMessage(instruction)] + messages)`, with `tools` bound by `bind_tools`. */
  datatype Call = Call(instruction: Instruction, messages: seq<Message>, tools: seq<string>)

  type Model = Call -> Reply
}
