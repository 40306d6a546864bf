/**
 * The chat and message records shared by the persistence route and the client
 * components (`SerializedChat`, `SerializedMessage`). Timestamps are abstract
 * ordered keys; their ISO-8601 rendering is not modelled.
 */
module ChatData {

  type Timestamp = int

  const UserRole := "USER"
  const BotRole := "BOT"
  const UnknownModel := "UNKNOWN"

  datatype Message = Message(id: int, chatId: nat, content: string, role: string, createdAt: Timestamp, modelUsed: string)

  datatype Chat = Chat(id: nat, title: string, createdAt: Timestamp, updatedAt: Timestamp, userId: string, messages: seq<Message>)
}
