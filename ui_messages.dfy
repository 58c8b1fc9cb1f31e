/**
 * Chat messages in the shape the AI SDK hands them to the interface: a
 * message has an id, a role and an ordered list of parts, each tagged with
 * its type.
 */
module UIMessages {
  /** A message id is a string or a number. */
  datatype MessageId = StringId(s: string) | NumberId(n: int)

  /** A message part: its `type` tag and, for "text" parts, its text. */
  datatype UIPart = UIPart(kind: string, text: string)

  const TEXT_KIND: string := "text"

  datatype UIMessage = UIMessage(id: MessageId, role: string, parts: seq<UIPart>)
}
