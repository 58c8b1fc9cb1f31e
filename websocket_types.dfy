/**
 * The WebSocket wire messages between the interface and the main process,
 * and the tag guards that tell server messages apart.
 */
module WebSocketTypes {
  import opened UIMessages

  const REGISTER: string := "register"
  const STOP: string := "stop"

  const MESSAGE_UPDATE: string := "message_update"
  const DONE: string := "done"
  const ERROR: string := "error"

  /** Client to server: both messages name a thread. */
  datatype ClientMessage = Register(threadId: string) | Stop(threadId: string)

  /** Server to client. */
  datatype ServerMessage =
    | MessageUpdate(messageId: string, threadId: string, parts: seq<UIPart>, timestamp: string)
    | Done
    | Error(message: string)

  /** The `type` tag each message carries. */
  function ClientType(m: ClientMessage): string {
    match m
    case Register(_) => REGISTER
    case Stop(_) => STOP
  }

  function ServerType(m: ServerMessage): string {
    match m
    case MessageUpdate(_, _, _, _) => MESSAGE_UPDATE
    case Done => DONE
    case Error(_) => ERROR
  }

  predicate IsMessageUpdate(m: ServerMessage) {
    ServerType(m) == MESSAGE_UPDATE
  }

  predicate IsDoneMessage(m: ServerMessage) {
    ServerType(m) == DONE
  }

  predicate IsErrorMessage(m: ServerMessage) {
    ServerType(m) == ERROR
  }

  /** Each guard holds exactly for its own variant. */
  lemma GuardsMatchVariants(m: ServerMessage)
    ensures IsMessageUpdate(m) <==> m.MessageUpdate?
    ensures IsDoneMessage(m) <==> m.Done?
    ensures IsErrorMessage(m) <==> m.Error?
  {
  }

  /** Exactly one guard holds for every server message. */
  lemma ExactlyOneGuard(m: ServerMessage)
    ensures IsMessageUpdate(m) || IsDoneMessage(m) || IsErrorMessage(m)
    ensures !(IsMessageUpdate(m) && IsDoneMessage(m))
    ensures !(IsMessageUpdate(m) && IsErrorMessage(m))
    ensures !(IsDoneMessage(m) && IsErrorMessage(m))
  {
  }

  /** The tag determines the variant: messages with equal tags are of the
      same kind. */
  lemma ServerTagDeterminesVariant(m: ServerMessage, n: ServerMessage)
    ensures ServerType(m) == ServerType(n) <==>
              (m.MessageUpdate? && n.MessageUpdate?) || (m.Done? && n.Done?) || (m.Error? && n.Error?)
  {
  }

  /** A client message is tagged "register" or "stop", and names a thread
      either way. */
  lemma ClientMessageTags(m: ClientMessage)
    ensures ClientType(m) == REGISTER || ClientType(m) == STOP
    ensures ClientType(m) == REGISTER <==> m == Register(m.threadId)
    ensures ClientType(m) == STOP <==> m == Stop(m.threadId)
  {
  }
}
