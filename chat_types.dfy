/** The records the chat console passes around: messages of a conversation and
    the conversation summaries shown in the sidebar. */
module ChatTypes {
  import opened Base

  datatype MessageType = Text | Image

  /** Delivery state of an outgoing message; inbound and fetched messages carry none. */
  datatype DeliveryStatus = Sending | Sent | Failed

  /** A message as held by the message cache. `createdAt` is the instant in
      milliseconds (the source carries an ISO string and parses it for display);
      `userId` is set on the operator's own messages, `guestId` on the guest's. */
  datatype Message = Message(
    id: int,
    userId: Option<string>,
    guestId: Option<string>,
    kind: MessageType,
    content: string,
    createdAt: int,
    status: Option<DeliveryStatus>)

  /** Conversation status codes. */
  const StatusUnreplied := 0
  const StatusReplied := 1
  const StatusClosed := 2
  const StatusArchived := 3

  /** A conversation summary. `unread` is the backend's `is_unread` field, the one
      the unread dot and the badge count read. `unreadKey` is the separate
      camel-case `isUnread` key that the store's unread toggle writes as the code
      stands (absent until written); see ChatConversations.SetUnreadKeyAsWritten. */
  datatype Conversation = Conversation(
    id: string,
    name: string,
    status: int,
    lastMessage: string,
    lastMessageAt: string,
    unread: bool,
    unreadKey: Option<bool>)
}
