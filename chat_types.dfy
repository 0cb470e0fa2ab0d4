/** The records the chat client keeps: messages and the sessions that hold them. */
module ChatTypes {
  import opened Common

  datatype SenderType = User | Agent | System

  datatype Metadata = Metadata(isError: Option<bool>, workflowStatus: Option<string>)

  /** One chat message; `timestamp` is a millisecond clock reading. */
  datatype Message = Message(
    id: string,
    text: string,
    sender: SenderType,
    timestamp: int,
    metadata: Option<Metadata>)

  /** A named thread of messages, oldest message first. */
  datatype ChatSession = ChatSession(
    id: string,
    name: string,
    messages: seq<Message>,
    createdAt: int)

  /** The webhook settings: only the URL the messages are posted to. */
  datatype N8nConfig = N8nConfig(webhookUrl: string)
}
