/** The conventional optional value, standing for the source's `T | null`
    and `T | undefined`. */
module Optional {

  datatype Option<T> = None | Some(value: T) {

    /** The value, or `default` when absent: the source's `x || default`
        on an object-valued `x`. */
    function GetOr(default: T): T {
      match this
      case Some(v) => v
      case None => default
    }
  }
}

/** The records the console keeps in memory (types.ts in the repository is
    not part of this model; the fields below are the ones App.tsx and
    components/Login.tsx read or write). Identifiers are strings, as the
    backend hands them out; timestamps are integers (milliseconds). */
module Entities {

  /** Role of an operator that sees every contact and every chat. */
  const Manager: string := "Gerente"
  /** Role given to an operator whose profile row could not be read at signup. */
  const Agent: string := "Atendente"
  /** The `handled_by` sentinel of a chat nobody has claimed. */
  const Bot: string := "bot"
  /** The screen that shows the chat inbox. */
  const WhatsAppView: string := "whatsapp"
  /** The screen shown after start-up. */
  const DashboardView: string := "dashboard"

  /** An operator of the console (a row of `profiles`). */
  datatype User = User(id: string, name: string, login: string, role: string, avatarUrl: string)

  /** A CRM lead or customer (a row of `crm_contacts`). */
  datatype Contact = Contact(
    id: string,
    name: string,
    email: string,
    phone: string,
    avatarUrl: string,
    tags: seq<string>,
    pipelineStage: string,
    ownerId: string,
    value: int,
    temperature: string,
    nextActionDate: string,
    leadSource: string)

  datatype MessageKind = Text | Internal

  datatype DeliveryStatus = Sent | Delivered | Read

  /** A message of a chat (a row of `messages`). `sender` is an operator id,
      a contact id or the bot sentinel. */
  datatype Message = Message(
    id: string,
    chatId: string,
    sender: string,
    text: string,
    avatarUrl: string,
    kind: MessageKind,
    status: DeliveryStatus,
    timestamp: int)

  /** A conversation with one contact (a row of `chats` with its messages).
      `timestamp` is the formatted time shown in the inbox, kept opaque. */
  datatype Chat = Chat(
    id: string,
    contactId: string,
    contactName: string,
    avatarUrl: string,
    lastMessage: string,
    timestamp: string,
    unreadCount: int,
    messages: seq<Message>,
    handledBy: string)

  datatype QuickReply = QuickReply(id: string, shortcut: string, message: string)

  datatype KnowledgeBaseItem = KnowledgeBaseItem(id: string, title: string, content: string)
}
