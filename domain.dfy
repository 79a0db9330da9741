/** Record shapes shared by the pages and services (src/types/interfaces.ts and the
    page-local interfaces), plus the optional and fallible wrappers used throughout.
    Money is held in integer cents. */
module Domain {

  datatype Option<T> = None | Some(value: T) {
    /** JavaScript's `x || d` for a numeric field that may be undefined. */
    function GetOr(default: T): T {
      match this
      case Some(v) => v
      case None => default
    }
  }

  /** The outcome of a call into the REST layer: a value, or the message of the error thrown. */
  datatype Result<T> = Ok(value: T) | Err(message: string)

  type Cents = int

  datatype DocumentType = CPF | CNPJ

  datatype PlanType = Prepaid | Postpaid

  datatype Client = Client(
    id: string,
    name: string,
    documentId: string,
    documentType: DocumentType,
    planType: PlanType,
    balance: Option<Cents>,
    limit: Option<Cents>,
    active: bool)

  /** The conversation record as Chat.tsx and Conversations.tsx declare it. */
  datatype Conversation = Conversation(
    id: string,
    recipientId: string,
    recipientName: string,
    lastMessageContent: string,
    lastMessageTime: string,
    unreadCount: int)

  datatype SenderType = ClientSender | UserSender

  datatype Sender = Sender(id: string, kind: SenderType)

  datatype Priority = Normal | Urgent

  datatype Status = Queued | Processing | Sent | Delivered | Read | Failed

  datatype Message = Message(
    id: string,
    conversationId: string,
    content: string,
    sentBy: Sender,
    timestamp: string,
    priority: Priority,
    status: Status,
    cost: Option<Cents>)
}
