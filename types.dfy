/** The chat message exchanged with the completion service and kept in sessions. */
module Types {

  datatype Message = Message(role: string, content: string)

  function SystemMsg(content: string): Message { Message("system", content) }
  function UserMsg(content: string): Message { Message("user", content) }
  function AssistantMsg(content: string): Message { Message("assistant", content) }
}
