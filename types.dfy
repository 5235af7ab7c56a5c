/** The records of the chat client (types.ts). Timestamps are milliseconds
    since the epoch, as `Date.now()` returns them. */
module Types {
  import opened Wrappers

  /** Who wrote a message. The assistant is MODEL, as in the source enum. */
  datatype Role = USER | MODEL | SYSTEM

  /** A file attached to a user message; `data` is the base64 text and
      `mimeType` is the field the source calls `type`. */
  datatype Attachment = Attachment(name: string, mimeType: string, data: string, size: int)

  datatype Message = Message(
    id: string,
    role: Role,
    content: string,
    timestamp: int,
    tokens: Option<int>,
    attachments: Option<seq<Attachment>>)

  datatype Conversation = Conversation(
    id: string,
    title: string,
    messages: seq<Message>,
    modelId: string,
    lastUpdated: int,
    systemPrompt: Option<string>)

  /** A catalog entry of the model picker. */
  datatype Model = Model(
    id: string,
    name: string,
    provider: string,
    description: string,
    capabilities: seq<string>)
}
