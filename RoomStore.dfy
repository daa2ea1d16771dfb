/**
 * The room store of the user interface: the state record of the chat screen
 * (profile, room list, active room, conversations of the active room) and the
 * mutations that change it in place, together with the projection of a chat
 * conversation into the store's conversation record.
 *
 * Rooms are objects: the active room is the very object found in the room list,
 * so a change made through one is seen through the other. Conversations are
 * values held in a sequence; each belongs to one entry of the list.
 */
module RoomStore {
  import opened Wrappers
  import opened Seqs
  import ChatTypes
  import ChatClient

  // ---------------------------------------------------------------------------
  // Records
  // ---------------------------------------------------------------------------

  /** `ContentType`: TEXT, IMAGE, FILE. */
  datatype ContentType = Text | Image | File

  /** A browser `Blob`: its bytes and its MIME type. */
  datatype Blob = Blob(data: ChatTypes.Bytes, mime: string)

  /** `FileInfo` of a file or image conversation; `binary` is `null` until the bytes are there. */
  datatype FileInfo = FileInfo(
    id: string, name: string, binary: Option<Blob>, size: int, fileType: string, downloaded: real)

  /** The `message` of a conversation: `string | FileInfo`, or `undefined`. */
  datatype MessageBody = NoBody | TextBody(text: string) | FileBody(file: FileInfo)

  /** The store's `Conversation`; the optional members read as `undefined` when absent. */
  datatype Conversation = Conversation(
    id: string, receive: Option<bool>, sentAt: int, sender: Option<string>,
    contentType: Option<ContentType>, message: MessageBody,
    read: Option<bool>, received: Option<bool>, failed: Option<bool>)

  /** `SentMessage`: what the send actions hand to `sendingMessage`; the text action gives no type. */
  datatype SentMessage = SentMessage(id: string, contentType: Option<ContentType>, message: MessageBody, sentAt: int)

  /** The signed-in user. */
  datatype Profile = Profile(id: string, name: string, photo: string, online: bool)

  /** A room of the room list. */
  class Room {
    const id: string
    const name: string
    const photo: string
    const description: string
    /** Preview of the last conversation (`undefined` when the message had no preview). */
    var lastConversation: Option<string>
    /** Ids of the users currently typing in the room. */
    var typings: seq<string>

    /** A room as the room-loading action builds it: nobody typing. */
    constructor(id: string, name: string, photo: string, description: string, lastConversation: Option<string>)
      ensures this.id == id && this.name == name && this.photo == photo && this.description == description
      ensures this.lastConversation == lastConversation && typings == []
    {
      this.id := id;
      this.name := name;
      this.photo := photo;
      this.description := description;
      this.lastConversation := lastConversation;
      typings := [];
    }
  }

  // ---------------------------------------------------------------------------
  // Lookups
  // ---------------------------------------------------------------------------

  /** `rooms.findIndex(r => r.id === id)`. */
  function RoomIndex(rooms: seq<Room>, id: string): (i: int)
    ensures -1 <= i < |rooms|
    ensures i == -1 <==> forall k :: 0 <= k < |rooms| ==> rooms[k].id != id
    ensures 0 <= i ==> rooms[i].id == id && forall k :: 0 <= k < i ==> rooms[k].id != id
  {
    FindIndex(rooms, (r: Room) => r.id == id)
  }

  /** `cs[k]` is the first conversation with id `id`. */
  predicate FirstWithId(cs: seq<Conversation>, k: int, id: string) {
    0 <= k < |cs| && cs[k].id == id && forall j :: 0 <= j < k ==> cs[j].id != id
  }

  /** `conversations.findIndex(c => c.id === id)`. */
  function ConversationIndex(cs: seq<Conversation>, id: string): (i: int)
    ensures -1 <= i < |cs|
    ensures i == -1 <==> forall k :: 0 <= k < |cs| ==> cs[k].id != id
    ensures forall k :: FirstWithId(cs, k, id) <==> k == i && i != -1
  {
    FindIndex(cs, (c: Conversation) => c.id == id)
  }

  /** `(c.message as FileInfo)?.id`: only a file body has an id. */
  function FileID(c: Conversation): Option<string> {
    if c.message.FileBody? then Some(c.message.file.id) else None
  }

  /** `cs[k]` is the first conversation carrying the file `fileID`. */
  predicate FirstWithFile(cs: seq<Conversation>, k: int, fileID: string) {
    0 <= k < |cs| && FileID(cs[k]) == Some(fileID) && forall j :: 0 <= j < k ==> FileID(cs[j]) != Some(fileID)
  }

  /** `conversations.findIndex(c => (c.message as FileInfo)?.id === fileID)`. */
  function FileIndex(cs: seq<Conversation>, fileID: string): (i: int)
    ensures -1 <= i < |cs|
    ensures i == -1 <==> forall k :: 0 <= k < |cs| ==> FileID(cs[k]) != Some(fileID)
    ensures forall k :: FirstWithFile(cs, k, fileID) <==> k == i && i != -1
  {
    FindIndex(cs, (c: Conversation) => FileID(c) == Some(fileID))
  }

  // ---------------------------------------------------------------------------
  // Conversation-list updates
  // ---------------------------------------------------------------------------

  /** The three status flags a mutation can raise on a conversation. */
  datatype Flag = ReadFlag | ReceivedFlag | FailedFlag

  /** The conversation with one flag set to true. */
  function WithFlag(c: Conversation, f: Flag): (r: Conversation)
    ensures f == ReadFlag ==> r == c.(read := Some(true))
    ensures f == ReceivedFlag ==> r == c.(received := Some(true))
    ensures f == FailedFlag ==> r == c.(failed := Some(true))
  {
    match f
    case ReadFlag => c.(read := Some(true))
    case ReceivedFlag => c.(received := Some(true))
    case FailedFlag => c.(failed := Some(true))
  }

  /** The list after raising flag `f` on the first conversation with id `id`. */
  function SetFlag(cs: seq<Conversation>, id: string, f: Flag): (r: seq<Conversation>)
    ensures |r| == |cs|
    ensures forall k :: 0 <= k < |cs| ==> r[k] == if FirstWithId(cs, k, id) then WithFlag(cs[k], f) else cs[k]
  {
    var i := ConversationIndex(cs, id);
    if i > -1 then cs[i := WithFlag(cs[i], f)] else cs
  }

  /** The list after putting `c` in place of the first conversation with id `id`. */
  function ReplaceFirst(cs: seq<Conversation>, id: string, c: Conversation): (r: seq<Conversation>)
    ensures |r| == |cs|
    ensures forall k :: 0 <= k < |cs| ==> r[k] == if FirstWithId(cs, k, id) then c else cs[k]
  {
    var i := ConversationIndex(cs, id);
    if i > -1 then cs[i := c] else cs
  }

  /** The file of a conversation with new download progress. */
  function WithProgress(c: Conversation, progress: real): Conversation
    requires c.message.FileBody?
  {
    c.(message := FileBody(c.message.file.(downloaded := progress)))
  }

  /** The file of a conversation with its bytes attached and marked fully downloaded. */
  function WithBinary(c: Conversation, binary: Blob): Conversation
    requires c.message.FileBody?
  {
    c.(message := FileBody(c.message.file.(binary := Some(binary), downloaded := 1.0)))
  }

  /** Download progress of the first conversation carrying `fileID`, unless that file is already complete. */
  function ChunkProgress(cs: seq<Conversation>, fileID: string, progress: real): (r: seq<Conversation>)
    ensures |r| == |cs|
    ensures forall k :: 0 <= k < |cs| ==>
      r[k] == if FirstWithFile(cs, k, fileID) && cs[k].message.file.downloaded != 1.0 then WithProgress(cs[k], progress) else cs[k]
  {
    var i := FileIndex(cs, fileID);
    if i > -1 && cs[i].message.file.downloaded != 1.0 then cs[i := WithProgress(cs[i], progress)] else cs
  }

  /** The first conversation carrying `fileID` gets its bytes and is marked complete. */
  function CompleteFile(cs: seq<Conversation>, fileID: string, binary: Blob): (r: seq<Conversation>)
    ensures |r| == |cs|
    ensures forall k :: 0 <= k < |cs| ==> r[k] == if FirstWithFile(cs, k, fileID) then WithBinary(cs[k], binary) else cs[k]
  {
    var i := FileIndex(cs, fileID);
    if i > -1 then cs[i := WithBinary(cs[i], binary)] else cs
  }

  /** The ids of a conversation list. */
  function ConversationIds(cs: seq<Conversation>): (r: seq<string>)
    ensures |r| == |cs| && forall k :: 0 <= k < |cs| ==> r[k] == cs[k].id
  {
    seq(|cs|, k requires 0 <= k < |cs| => cs[k].id)
  }

  /** With distinct ids, raising a flag changes exactly the conversation with that id, and it then has the flag. */
  lemma SetFlagOnlyTarget(cs: seq<Conversation>, id: string, f: Flag)
    requires NoDup(ConversationIds(cs))
    ensures forall k :: 0 <= k < |cs| && cs[k].id != id ==> SetFlag(cs, id, f)[k] == cs[k]
    ensures forall k :: 0 <= k < |cs| && cs[k].id == id ==> SetFlag(cs, id, f)[k] == WithFlag(cs[k], f)
    ensures ConversationIds(SetFlag(cs, id, f)) == ConversationIds(cs)
  {
  }

  /** Raising the same flag twice is raising it once. */
  lemma SetFlagIdempotent(cs: seq<Conversation>, id: string, f: Flag)
    ensures SetFlag(SetFlag(cs, id, f), id, f) == SetFlag(cs, id, f)
  {
  }

  /** Once the committed conversation replaces the optimistic one, the temporary id is gone from a list of distinct ids. */
  lemma ReplaceRetiresTempId(cs: seq<Conversation>, tempID: string, c: Conversation)
    requires NoDup(ConversationIds(cs)) && c.id != tempID
    ensures tempID !in ConversationIds(ReplaceFirst(cs, tempID, c))
    ensures |ReplaceFirst(cs, tempID, c)| == |cs|
  {
  }

  /** A chunk that arrives after the transfer completed changes nothing. */
  lemma ChunkAfterCompleteIgnored(cs: seq<Conversation>, fileID: string, binary: Blob, progress: real)
    ensures ChunkProgress(CompleteFile(cs, fileID, binary), fileID, progress) == CompleteFile(cs, fileID, binary)
  {
  }

  /** Progress reports never undo a completed download: a file at 1 stays at 1 and keeps its bytes. */
  lemma CompletedFileStaysComplete(cs: seq<Conversation>, fileID: string, progress: real, k: int)
    requires 0 <= k < |cs| && cs[k].message.FileBody? && cs[k].message.file.downloaded == 1.0
    ensures ChunkProgress(cs, fileID, progress)[k] == cs[k]
  {
  }

  // ---------------------------------------------------------------------------
  // Previews and projections
  // ---------------------------------------------------------------------------

  /** The room preview of a message: the file name for files and images, otherwise the text. */
  function Preview(t: Option<ContentType>, body: MessageBody): (p: Option<string>)
    ensures (t == Some(File) || t == Some(Image)) ==> (p.Some? <==> body.FileBody?) && (body.FileBody? ==> p == Some(body.file.name))
    ensures !(t == Some(File) || t == Some(Image)) ==> (p.Some? <==> body.TextBody?) && (body.TextBody? ==> p == Some(body.text))
  {
    if t == Some(File) || t == Some(Image) then
      (if body.FileBody? then Some(body.file.name) else None)
    else if body.TextBody? then Some(body.text)
    else None
  }

  /** The optimistic conversation `sendingMessage` appends. */
  function Optimistic(m: SentMessage): (c: Conversation)
    ensures c.id == m.id && c.receive == Some(false) && c.sentAt == m.sentAt
    ensures c.message == m.message && c.contentType == m.contentType
    ensures c.sender.None? && c.read.None? && c.received.None? && c.failed.None?
  {
    Conversation(m.id, Some(false), m.sentAt, None, m.contentType, m.message, None, None, None)
  }

  /** `mapMessageType`: MESSAGE to TEXT, FILE to FILE, IMAGE to IMAGE. */
  function MapMessageType(t: ChatTypes.MessageType): (c: ContentType)
    ensures c == Text <==> t == ChatTypes.TextMessage
    ensures c == File <==> t == ChatTypes.FileMessage
    ensures c == Image <==> t == ChatTypes.ImageMessage
  {
    match t
    case TextMessage => Text
    case FileMessage => File
    case ImageMessage => Image
  }

  /** The message type a content type comes from. */
  function MessageTypeOf(c: ContentType): ChatTypes.MessageType {
    match c
    case Text => ChatTypes.TextMessage
    case File => ChatTypes.FileMessage
    case Image => ChatTypes.ImageMessage
  }

  /** `mapMessageType` is a bijection. */
  lemma MapMessageTypeBijective(t: ChatTypes.MessageType, c: ContentType)
    ensures MessageTypeOf(MapMessageType(t)) == t
    ensures MapMessageType(MessageTypeOf(c)) == c
  {
  }

  /** Is the message a file or an image? */
  predicate IsFileType(t: ChatTypes.MessageType) {
    t == ChatTypes.FileMessage || t == ChatTypes.ImageMessage
  }

  /** The content can be read as its message type declares: a file description for files and images, text or nothing otherwise. */
  predicate ContentFits(m: ChatTypes.Message) {
    if IsFileType(m.messageType) then m.content.Some? && m.content.value.FileContentOf?
    else m.content.None? || m.content.value.TextContent?
  }

  /** The store's `FileInfo` for a file description; the bytes become a `Blob` of the file's type. */
  function FileInfoOf(f: ChatTypes.FileContent): (i: FileInfo)
    ensures i.id == f.id && i.name == f.name && i.size == f.size && i.fileType == f.fileType && i.downloaded == f.downloaded
    ensures i.binary.Some? <==> f.binary.Some?
    ensures f.binary.Some? ==> i.binary == Some(Blob(f.binary.value, f.fileType))
  {
    FileInfo(f.id, f.name, if f.binary.Some? then Some(Blob(f.binary.value, f.fileType)) else None,
             f.size, f.fileType, f.downloaded)
  }

  /**
   * `mapConversation`. A file or image without content throws, and content of
   * another kind than the type declares is not modelled: both are errors.
   */
  function MapConversation(c: ChatTypes.Conversation): (r: Result<Conversation>)
    ensures r.Ok? <==> ContentFits(c.message)
    ensures r.Ok? ==>
      && r.value.id == c.id && r.value.sentAt == c.sendAt && r.value.receive == c.isReceiver
      && r.value.sender == (if c.sender.Some? then Some(c.sender.value.name) else None)
      && r.value.contentType == Some(MapMessageType(c.message.messageType))
      && r.value.failed == Some(c.status == ChatTypes.Failed)
      && r.value.read == Some(c.status == ChatTypes.Read)
      && r.value.received == Some(c.status == ChatTypes.Received)
    ensures r.Ok? && IsFileType(c.message.messageType) ==> r.value.message == FileBody(FileInfoOf(c.message.content.value.file))
    ensures r.Ok? && !IsFileType(c.message.messageType) ==>
      r.value.message == (if c.message.content.None? then NoBody else TextBody(c.message.content.value.text))
  {
    var m := c.message;
    var body :=
      if IsFileType(m.messageType) then
        (if m.content.Some? && m.content.value.FileContentOf? then Ok(FileBody(FileInfoOf(m.content.value.file)))
         else if m.content.None? then Err("TypeError: file content is undefined")
         else Err("content does not fit the message type"))
      else if m.content.None? then Ok(NoBody)
      else if m.content.value.TextContent? then Ok(TextBody(m.content.value.text))
      else Err("content does not fit the message type");
    match body
    case Err(e) => Err(e)
    case Ok(message) =>
      Ok(Conversation(c.id, c.isReceiver, c.sendAt, if c.sender.Some? then Some(c.sender.value.name) else None,
                      Some(MapMessageType(m.messageType)), message,
                      Some(c.status == ChatTypes.Read), Some(c.status == ChatTypes.Received),
                      Some(c.status == ChatTypes.Failed)))
  }

  /** The room preview of a mapped conversation is its file name, or its text (none for a text message without content). */
  lemma PreviewOfMapped(c: ChatTypes.Conversation)
    requires MapConversation(c).Ok?
    ensures Preview(MapConversation(c).value.contentType, MapConversation(c).value.message)
         == if IsFileType(c.message.messageType) then Some(c.message.content.value.file.name)
            else if c.message.content.None? then None
            else Some(c.message.content.value.text)
  {
  }

  /** Which flags of a mapped conversation are true. */
  function TrueFlags(c: Conversation): set<Flag> {
    (if c.read == Some(true) then {ReadFlag} else {})
    + (if c.received == Some(true) then {ReceivedFlag} else {})
    + (if c.failed == Some(true) then {FailedFlag} else {})
  }

  /** A mapped conversation has exactly one true flag, except a SENT one, which has none. */
  lemma MappedFlagsExclusive(c: ChatTypes.Conversation)
    requires MapConversation(c).Ok?
    ensures |TrueFlags(MapConversation(c).value)| == if c.status == ChatTypes.Sent then 0 else 1
  {
  }

  /** "image" occurs in `s` at position `i`. */
  predicate ImageAt(s: string, i: int) {
    0 <= i && i + 5 <= |s| && s[i..i + 5] == "image"
  }

  /** `isImage`: the MIME type contains "image" anywhere. */
  function IsImage(fileType: string): (b: bool)
    ensures b ==> |fileType| >= 5
    ensures ImageAt(fileType, 0) ==> b
    decreases |fileType|
  {
    if |fileType| < 5 then false
    else fileType[..5] == "image" || IsImage(fileType[1..])
  }

  /** `isImage` holds exactly when "image" occurs somewhere in the text. */
  lemma {:induction false} IsImageMeansContains(s: string)
    ensures IsImage(s) <==> exists i :: ImageAt(s, i)
    decreases |s|
  {
    if |s| >= 5 {
      var t := s[1..];
      IsImageMeansContains(t);
      if s[..5] == "image" {
        assert s[0..5] == s[..5];
        assert ImageAt(s, 0);
      }
      if IsImage(t) {
        var i :| ImageAt(t, i);
        assert s[i + 1..i + 6] == t[i..i + 5];
        assert ImageAt(s, i + 1);
      }
      if exists i :: ImageAt(s, i) {
        var i :| ImageAt(s, i);
        if i == 0 {
          assert s[..5] == s[0..5];
        } else {
          assert t[i - 1..i + 4] == s[i..i + 5];
          assert ImageAt(t, i - 1);
        }
      }
    }
  }

  // ---------------------------------------------------------------------------
  // The store state and its mutations
  // ---------------------------------------------------------------------------

  class RoomState {
    var loadingProfile: bool
    var profile: Option<Profile>
    var loadingRoom: bool
    /** The last error, by its message. */
    var error: Option<string>
    var rooms: seq<Room>
    var activeRoom: Room?
    var loadingConversation: bool
    /** Conversations of the active room, oldest first. */
    var conversations: seq<Conversation>

    /** `state()`: nothing loaded, no active room. */
    constructor()
      ensures !loadingProfile && profile.None? && !loadingRoom && error.None?
      ensures rooms == [] && activeRoom == null && !loadingConversation && conversations == []
    {
      loadingProfile := false;
      profile := None;
      loadingRoom := false;
      error := None;
      rooms := [];
      activeRoom := null;
      loadingConversation := false;
      conversations := [];
    }

    /** The rooms whose typing lists the store can reach: the room list and the active room. */
    function Tracked(): set<Room>
      reads this
    {
      (set r | r in rooms) + (if activeRoom != null then {activeRoom} else {})
    }

    /** No typing list the store can reach lists a user twice. */
    ghost predicate TypingsDistinct()
      reads this, Tracked()
    {
      forall r :: r in Tracked() ==> NoDup(r.typings)
    }

    /** Index in the room list of the active room's id, or -1 (also when there is no active room). */
    function ActiveIndex(): (i: int)
      reads this
      ensures -1 <= i < |rooms|
      ensures activeRoom == null ==> i == -1
      ensures activeRoom != null ==> i == RoomIndex(rooms, activeRoom.id)
    {
      if activeRoom == null then -1 else RoomIndex(rooms, activeRoom.id)
    }

    method LoadProfile()
      modifies this`error, this`loadingProfile
      ensures error.None? && loadingProfile
    {
      error := None;
      loadingProfile := true;
    }

    method ProfileLoaded(p: Profile)
      modifies this`loadingProfile, this`profile
      ensures !loadingProfile && profile == Some(p)
    {
      loadingProfile := false;
      profile := Some(p);
    }

    method ErrorLoadProfile(e: string)
      modifies this`error, this`loadingProfile
      ensures error == Some(e) && !loadingProfile
    {
      error := Some(e);
      loadingProfile := false;
    }

    method LoadRooms()
      modifies this`error, this`loadingRoom
      ensures error.None? && loadingRoom
    {
      error := None;
      loadingRoom := true;
    }

    method RoomsLoaded(rs: seq<Room>)
      modifies this`loadingRoom, this`rooms
      ensures !loadingRoom && rooms == rs
    {
      loadingRoom := false;
      rooms := rs;
    }

    method ErrorLoadRoom(e: string)
      modifies this`loadingRoom, this`error
      ensures !loadingRoom && error == Some(e)
    {
      loadingRoom := false;
      error := Some(e);
    }

    /** `setActiveRoom`: always clears the conversations; switches only to a room of the list. */
    method SetActiveRoom(roomID: string)
      modifies this`conversations, this`activeRoom
      ensures conversations == []
      ensures RoomIndex(rooms, roomID) == -1 ==> activeRoom == old(activeRoom)
      ensures RoomIndex(rooms, roomID) != -1 ==> activeRoom == rooms[RoomIndex(rooms, roomID)] && activeRoom.id == roomID
    {
      conversations := [];
      var idx := RoomIndex(rooms, roomID);
      if idx != -1 {
        activeRoom := rooms[idx];
      }
    }

    method LoadConversations()
      modifies this`error, this`conversations, this`loadingConversation
      ensures error.None? && conversations == [] && loadingConversation
    {
      error := None;
      conversations := [];
      loadingConversation := true;
    }

    method ConversationLoaded(cs: seq<Conversation>)
      modifies this`conversations, this`loadingConversation
      ensures conversations == cs && !loadingConversation
    {
      conversations := cs;
      loadingConversation := false;
    }

    method LoadNextConversations()
      modifies this`error, this`loadingConversation
      ensures error.None? && loadingConversation
    {
      error := None;
      loadingConversation := true;
    }

    /** `nextConversationLoaded`: the older page goes in front of what is shown. */
    method NextConversationLoaded(page: seq<Conversation>)
      modifies this`conversations, this`loadingConversation
      ensures conversations == page + old(conversations) && !loadingConversation
      ensures conversations[|page|..] == old(conversations)
    {
      conversations := page + conversations;
      loadingConversation := false;
    }

    method ErrorLoadConversation(e: string)
      modifies this`error, this`loadingConversation
      ensures error == Some(e) && !loadingConversation
    {
      error := Some(e);
      loadingConversation := false;
    }

    /**
     * Sets the preview of the room-list entry with the active room's id; `ok` is
     * false when there is no active room (reading its id throws).
     */
    method UpdatePreview(preview: Option<string>) returns (ok: bool)
      modifies rooms`lastConversation
      ensures ok == (activeRoom != null)
      ensures forall r :: r in rooms ==>
        r.lastConversation == if ActiveIndex() != -1 && r == rooms[ActiveIndex()] then preview else old(r.lastConversation)
    {
      if activeRoom == null {
        return false;
      }
      ok := true;
      var idx := RoomIndex(rooms, activeRoom.id);
      if idx > -1 {
        rooms[idx].lastConversation := preview;
      }
    }

    /** `sendingMessage`: append the optimistic conversation, then update the active room's preview. */
    method SendingMessage(m: SentMessage) returns (ok: bool)
      modifies this`conversations, rooms`lastConversation
      ensures conversations == old(conversations) + [Optimistic(m)]
      ensures ok == (activeRoom != null)
      ensures forall r :: r in rooms ==>
        r.lastConversation == if ActiveIndex() != -1 && r == rooms[ActiveIndex()] then Preview(m.contentType, m.message)
                              else old(r.lastConversation)
    {
      conversations := conversations + [Optimistic(m)];
      ok := UpdatePreview(Preview(m.contentType, m.message));
    }

    /** `receiveMessage`: append the incoming conversation, then update the active room's preview. */
    method ReceiveMessage(c: Conversation) returns (ok: bool)
      modifies this`conversations, rooms`lastConversation
      ensures conversations == old(conversations) + [c]
      ensures ok == (activeRoom != null)
      ensures forall r :: r in rooms ==>
        r.lastConversation == if ActiveIndex() != -1 && r == rooms[ActiveIndex()] then Preview(c.contentType, c.message)
                              else old(r.lastConversation)
    {
      conversations := conversations + [c];
      ok := UpdatePreview(Preview(c.contentType, c.message));
    }

    /** Raises flag `f` on the first conversation with id `id`. */
    method RaiseFlag(id: string, f: Flag)
      modifies this`conversations
      ensures conversations == SetFlag(old(conversations), id, f)
    {
      var idx := ConversationIndex(conversations, id);
      if idx > -1 {
        conversations := conversations[idx := WithFlag(conversations[idx], f)];
      }
    }

    /** `sendingMessageFailed`: the optimistic conversation is marked failed. */
    method SendingMessageFailed(tempID: string)
      modifies this`conversations
      ensures conversations == SetFlag(old(conversations), tempID, FailedFlag)
    {
      RaiseFlag(tempID, FailedFlag);
    }

    /** `messageSent`: the committed conversation replaces the optimistic one in place. */
    method MessageSent(tempID: string, c: Conversation)
      modifies this`conversations
      ensures conversations == ReplaceFirst(old(conversations), tempID, c)
    {
      var idx := ConversationIndex(conversations, tempID);
      if idx > -1 {
        conversations := conversations[idx := c];
      }
    }

    /** `messageRead`: a peer read the conversation. */
    method MessageRead(id: string)
      modifies this`conversations
      ensures conversations == SetFlag(old(conversations), id, ReadFlag)
    {
      RaiseFlag(id, ReadFlag);
    }

    /** `messageReceived`: a peer received the conversation. */
    method MessageReceived(id: string)
      modifies this`conversations
      ensures conversations == SetFlag(old(conversations), id, ReceivedFlag)
    {
      RaiseFlag(id, ReceivedFlag);
    }

    /** `readMessage`: the user read an incoming conversation. */
    method ReadMessage(id: string)
      modifies this`conversations
      ensures conversations == SetFlag(old(conversations), id, ReadFlag)
    {
      RaiseFlag(id, ReadFlag);
    }

    /** `receiveFileChunk`: new progress for the first conversation carrying the file, unless it is complete. */
    method ReceiveFileChunk(fileID: string, progress: real)
      modifies this`conversations
      ensures conversations == ChunkProgress(old(conversations), fileID, progress)
    {
      var idx := FileIndex(conversations, fileID);
      if idx > -1 {
        if conversations[idx].message.file.downloaded == 1.0 {
          return;
        }
        conversations := conversations[idx := WithProgress(conversations[idx], progress)];
      }
    }

    /** `fileTransferComplete`: the bytes arrive and the file is complete. */
    method FileTransferComplete(fileID: string, binary: Blob)
      modifies this`conversations
      ensures conversations == CompleteFile(old(conversations), fileID, binary)
    {
      var idx := FileIndex(conversations, fileID);
      if idx > -1 {
        conversations := conversations[idx := WithBinary(conversations[idx], binary)];
      }
    }

    /** The rooms `userTyping` adds the user to: the list entry with the room's id, and the active room if it has that id. */
    predicate TypingTarget(r: Room, roomID: string)
      reads this
    {
      (RoomIndex(rooms, roomID) != -1 && r == rooms[RoomIndex(rooms, roomID)])
      || (activeRoom != null && activeRoom.id == roomID && r == activeRoom)
    }

    /**
     * `userTyping`: the user is added, once, to the typing list of the room and of
     * the active room with that id; `ok` is false when there is no active room
     * (the list entry is updated before that throws).
     */
    method UserTyping(roomID: string, userID: string) returns (ok: bool)
      modifies Tracked()`typings
      ensures ok == (activeRoom != null)
      ensures forall r :: r in Tracked() ==>
        r.typings == if TypingTarget(r, roomID) then PushAbsent(old(r.typings), userID) else old(r.typings)
      ensures old(TypingsDistinct()) ==> TypingsDistinct()
    {
      var idx := RoomIndex(rooms, roomID);
      if idx > -1 {
        var room := rooms[idx];
        if userID !in room.typings {
          room.typings := room.typings + [userID];
        }
      }
      if activeRoom == null {
        return false;
      }
      ok := true;
      if activeRoom.id == roomID && userID !in activeRoom.typings {
        activeRoom.typings := activeRoom.typings + [userID];
      }
    }

    /** `finishTyping`: the user is removed from the typing list of the list entry with the room's id. */
    method FinishTyping(roomID: string, userID: string)
      modifies rooms`typings
      ensures forall r :: r in rooms ==>
        r.typings == if RoomIndex(rooms, roomID) != -1 && r == rooms[RoomIndex(rooms, roomID)]
                     then RemoveFirst(old(r.typings), userID) else old(r.typings)
      ensures old(TypingsDistinct()) ==> TypingsDistinct()
    {
      var idx := RoomIndex(rooms, roomID);
      if idx == -1 {
        return;
      }
      var room := rooms[idx];
      var id := IndexOf(room.typings, userID);
      if id > -1 {
        room.typings := room.typings[..id] + room.typings[id + 1..];
      }
    }
  }

  // ---------------------------------------------------------------------------
  // Chat client to store
  // ---------------------------------------------------------------------------

  /** As written, a conversation the client returns reaches the store with an undefined `receive`. */
  lemma ReceiveLostAsWritten(client: ChatClient.Client, s: ChatTypes.ConversationState)
    requires client.Valid()
    requires ContentFits(ChatTypes.Message(s.messageType, Some(s.messageContent)))
    ensures MapConversation(client.MapConversationFromStateAsWritten(s)).Ok?
    ensures MapConversation(client.MapConversationFromStateAsWritten(s)).value.receive.None?
  {
  }

  /**
   * With the client's complete mapping, the store sees whether the user received
   * the conversation, and exactly the flag of the status derived from its record.
   */
  lemma StoreSeesClientStatus(client: ChatClient.Client, s: ChatTypes.ConversationState)
    requires client.Valid()
    requires ContentFits(ChatTypes.Message(s.messageType, Some(s.messageContent)))
    ensures MapConversation(client.MapConversationFromState(s)).Ok?
    ensures MapConversation(client.MapConversationFromState(s)).value.receive == Some(s.isReceiver)
    ensures MapConversation(client.MapConversationFromState(s)).value.failed == Some(!s.isReceiver && ChatClient.HasError(s))
    ensures MapConversation(client.MapConversationFromState(s)).value.read == Some(ChatClient.StatusOf(s) == ChatTypes.Read)
    ensures s.isReceiver ==> MapConversation(client.MapConversationFromState(s)).value.failed == Some(false)
  {
  }
}
