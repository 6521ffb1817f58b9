/**
 * The records the chat components receive as props. Timestamps are
 * milliseconds since the epoch, as `Date.getTime()` returns them; identifiers
 * are the numeric ids the server assigns.
 */
module Schema {
  import opened Maybe

  /** A user as the client sees it. */
  datatype User = User(id: int, username: string, publicKey: string, isOnline: bool)

  /** A stored message. `messageType` is the free-form tag the sender chose. */
  datatype Message = Message(
    id: int,
    chatId: int,
    senderId: int,
    content: string,
    messageType: string,
    fileName: Option<string>,
    fileSize: Option<int>,
    createdAt: int,
    expiresAt: int)

  /** A chat as the server returns it from the create request. */
  datatype ChatRecord = ChatRecord(id: int, participant1Id: int, participant2Id: int)

  /**
   * A chat-list entry: the chat, the other participant, the latest message
   * (if any) and the unread count reported by the server (if any).
   */
  datatype ChatItem = ChatItem(
    chat: ChatRecord,
    otherUser: User,
    lastMessage: Option<Message>,
    unreadCount: Option<int>)

  /** The message type tags the client itself produces and renders. */
  const TextType: string := "text"
  const ImageType: string := "image"
  const FileType: string := "file"
}
