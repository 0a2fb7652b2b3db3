/** The records of types.ts: chat messages and the signed-in user. */
module Types {
  import opened Wrappers

  /** `'user' | 'agent' | 'system'`. */
  datatype Sender = FromUser | FromAgent | FromSystem

  /** `'sending' | 'sent' | 'error'`. */
  datatype DeliveryStatus = Sending | Sent | Failed

  /** A chat message. `timestamp` stands for the `Date` of creation; `status`
      is optional and never set by the chat window; `isLast` marks the newest
      message for the typewriter effect. */
  datatype Message = Message(
    id: string,
    text: string,
    sender: Sender,
    timestamp: int,
    status: Option<DeliveryStatus>,
    isLast: bool)

  /** `'online' | 'busy' | 'offline'`. */
  datatype Presence = Online | Busy | Offline

  datatype User = User(
    id: string,
    name: string,
    email: string,
    avatar: string,
    status: Presence,
    role: string)

  /** How a sender is written when the log is rendered as text. */
  function SenderName(s: Sender): string
  {
    match s
    case FromUser => "user"
    case FromAgent => "agent"
    case FromSystem => "system"
  }
}
