/** One turn of the conversation, shared by the session and the LLM client. */
module ChatMessages {

  /** `ChatMessage` in ClaudeTherapy/ChatMessage.swift. The Swift struct draws
      its `id` from `UUID()`; here the session hands out ids from a counter,
      which gives the same guarantee the view relies on: no two turns share
      an id. */
  datatype ChatMessage = ChatMessage(id: nat, sender: string, content: string)
}
