/**
 * The chat transcript entry shared by the chat hook and the chat context
 * (src/types/chat.ts). The uuid and the timestamp of a message are fresh,
 * opaque values and are not part of the model.
 */
module ChatMessage {

  datatype Role = User | Assistant

  datatype Message = Message(role: Role, content: string)
}
