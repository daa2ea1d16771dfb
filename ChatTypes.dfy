/**
 * Record and enum shapes shared by the chat client and the room store: the public
 * interfaces of the chat plugin, its data-channel protocol, the conversation-state
 * records kept by the conversation manager, and the directory entry of one peer.
 */
module ChatTypes {
  import opened Wrappers

  type Bytes = seq<bv8>

  /** A peer as the user interface sees it; `photo` is `null` for an unknown peer. */
  datatype User = User(id: string, name: string, photo: Option<string>, online: bool)

  /** `ConversationStatus`: SENT, RECEIVED, READ, FAILED. */
  datatype ConversationStatus = Sent | Received | Read | Failed

  /** `MessageType`: MESSAGE, FILE, IMAGE. */
  datatype MessageType = TextMessage | FileMessage | ImageMessage

  /** `FileContent` of a file or image message. */
  datatype FileContent = FileContent(
    id: string, name: string, binary: Option<Bytes>, size: int, fileType: string, downloaded: real)

  /** Message content: a string, a file description, or raw bytes (`string | FileContent | ArrayBuffer`). */
  datatype Content = TextContent(text: string) | FileContentOf(file: FileContent) | BinaryContent(bytes: Bytes)

  /** `Message`: a type and optional content. */
  datatype Message = Message(messageType: MessageType, content: Option<Content>)

  /**
   * `Conversation` as handed to the user interface. `isReceiver` and `roomID` are
   * optional because a conversation built without them reads as `undefined`.
   */
  datatype Conversation = Conversation(
    id: string, isReceiver: Option<bool>, roomID: Option<string>, sendAt: int,
    message: Message, status: ConversationStatus, sender: Option<User>)

  /** `ConversationState`: the stored record of one sent or received message. */
  datatype ConversationState = ConversationState(
    id: string, isReceiver: bool, roomID: string, senderID: string, sendAt: int,
    messageType: MessageType, messageContent: Content,
    receivers: Option<seq<string>>, read: Option<bool>,
    readBy: Option<seq<string>>, receivedBy: Option<seq<string>>,
    errorCode: Option<int>, errorMessage: Option<string>)

  /** `UserInRoomEventPayload`. */
  datatype UserInRoom = UserInRoom(roomID: string, user: User)

  /** `Room` of the chat plugin; the room events the client forwards carry no participants. */
  datatype Room = Room(id: string, name: string, photo: string, description: string, participants: seq<User>)

  /** The four frame types of the data-channel protocol (`MessagingType`). */
  datatype MessagingType = MessageNew | Typing | MessageReceived | MessageRead

  /** The string each frame type is sent as. */
  function WireName(t: MessagingType): string {
    match t
    case MessageNew => "message:new"
    case Typing => "user:typing"
    case MessageReceived => "message:received"
    case MessageRead => "message:read"
  }

  /** `NewMessagePayload`; `roomID` is optional because a payload built without it reads as `undefined`. */
  datatype NewMessagePayload = NewMessagePayload(
    id: string, roomID: Option<string>, sendAt: int, messageType: MessageType, messageContent: Option<Content>)

  /** The payloads the client puts in a frame, one per frame type. */
  datatype Payload =
    | NewMessage(message: NewMessagePayload)
    | TypingOf(typingRoomID: string, userID: string)
    | ReceivedAck(receivedID: string)
    | ReadBy(readID: string, readBy: string)

  /** `MessagingProtocol`: a frame type and its payload. */
  datatype Frame = Frame(frameType: MessagingType, payload: Payload)

  /** `ReceiveMessagePayload`, handed to the conversation manager for an incoming message. */
  datatype ReceiveMessagePayload = ReceiveMessagePayload(
    id: string, roomID: Option<string>, senderID: string, content: Option<Content>,
    messageType: MessageType, sentAt: int)

  /** `MessageSendPayload`, handed to the conversation manager for an outgoing message. */
  datatype MessageSendPayload = MessageSendPayload(
    id: string, roomID: string, senderID: string, messageType: MessageType, content: Option<Content>)
}
