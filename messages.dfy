/** The chat message record of the `ai` library that the components exchange
    (the library itself is not part of this model). */
module Messages {
  import opened Wrappers

  datatype Role = System | User | Assistant | Data

  /** The lifecycle of a tool call inside an assistant message. */
  datatype ToolState = PartialCall | Call | Result

  datatype ToolInvocation = ToolInvocation(toolName: string, state: ToolState)

  /** One part of a message; `OtherPart` stands for the remaining part types
      (reasoning, source, file, step-start). */
  datatype Part =
    | TextPart(text: string)
    | ToolInvocationPart(toolInvocation: ToolInvocation)
    | OtherPart(kind: string)

  /** A message of the conversation log; `parts` is absent on messages that
      carry only `content`. */
  datatype Message = Message(id: string, role: Role, content: string, parts: Option<seq<Part>>)

  /** A message handed to `append`, before the library gives it an id. */
  datatype CreateMessage = CreateMessage(role: Role, content: string)
}
