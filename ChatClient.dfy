/**
 * The deterministic core of the peer-to-peer chat client: the peer directory (one
 * entry per room participant), the derivation of a conversation's status, the
 * fan-out of protocol frames to connected peers, the dispatch of incoming frames,
 * the directory updates driven by room events, and the ICE-server configuration.
 *
 * WebRTC and the signalling service are not modelled as code: what the client asks
 * of them (send a frame, open or close a data channel, start negotiating with a
 * peer) is returned as `Effect` values, and the records they hand back are
 * parameters.
 */
module ChatClient {
  import opened Wrappers
  import opened Seqs
  import opened ChatTypes

  // ---------------------------------------------------------------------------
  // Records received from the signalling service
  // ---------------------------------------------------------------------------

  /** A user as the signalling service describes it. */
  datatype PBUser = PBUser(id: string, name: string, photo: string)

  /** A room of the signalling service with its members. */
  datatype PBRoom = PBRoom(id: string, name: string, description: string, photo: string, users: seq<PBUser>)

  /** The profile of a room carried by room-level events. */
  datatype RoomInstance = RoomInstance(id: string, name: string, description: string, photo: string)

  /** The room events of the signalling service's room-event stream. */
  datatype RoomEvent =
    | UserLeftRoom(roomID: string, participantID: string)
    | UserJoinedRoom(roomID: string, participantID: string)
    | RoomCreated(room: RoomInstance)
    | RoomProfileUpdated(room: RoomInstance)
    | RoomDestroyed(room: RoomInstance)
    | UserRegistered(user: PBUser)
    | UserProfileUpdated(user: PBUser)
    | UserRemoved(user: PBUser)

  // ---------------------------------------------------------------------------
  // ICE-server configuration
  // ---------------------------------------------------------------------------

  /** Numeric values of the signalling service's credential-type enum. */
  const PASSWORD: int := 0
  const OAUTH: int := 1

  /** An ICE server as configured in the profile; `credentialType` is `None` when the field is null or undefined. */
  datatype IceServerConfig = IceServerConfig(
    url: string, username: string, credentialType: Option<int>,
    password: string, accessToken: string, macKey: string)

  datatype IceCredential = PasswordCredential(password: string) | OAuthCredential(macKey: string, accessToken: string)

  /** The browser's `RTCIceServer` dictionary; absent members are `None`. */
  datatype RtcIceServer = RtcIceServer(
    urls: string, username: Option<string>, credentialType: Option<string>, credential: Option<IceCredential>)

  /** The conversion `connect` applies to each configured ICE server. */
  function ToRtcIceServer(s: IceServerConfig): (ice: RtcIceServer)
    ensures ice.urls == s.url
    ensures ice.username == (if s.credentialType.Some? then Some(s.username) else None)
    ensures ice.credentialType == Some("password") <==> s.credentialType == Some(PASSWORD)
    ensures ice.credentialType == Some("oauth") <==> s.credentialType == Some(OAUTH)
    ensures ice.credentialType.None? <==> ice.credential.None?
    ensures ice.credentialType == Some("password") ==> ice.credential == Some(PasswordCredential(s.password))
    ensures ice.credentialType == Some("oauth") ==> ice.credential == Some(OAuthCredential(s.macKey, s.accessToken))
  {
    match s.credentialType
    case None => RtcIceServer(s.url, None, None, None)
    case Some(t) =>
      if t == OAUTH then
        RtcIceServer(s.url, Some(s.username), Some("oauth"), Some(OAuthCredential(s.macKey, s.accessToken)))
      else if t == PASSWORD then
        RtcIceServer(s.url, Some(s.username), Some("password"), Some(PasswordCredential(s.password)))
      else
        RtcIceServer(s.url, Some(s.username), None, None)
  }

  /** The whole ICE configuration: one browser entry per configured server, in order. */
  function ToRtcIceServers(servers: seq<IceServerConfig>): (r: seq<RtcIceServer>)
    ensures |r| == |servers|
    ensures forall i :: 0 <= i < |servers| ==> r[i].urls == servers[i].url
    ensures forall i :: 0 <= i < |servers| ==> r[i] == ToRtcIceServer(servers[i])
  {
    seq(|servers|, i requires 0 <= i < |servers| => ToRtcIceServer(servers[i]))
  }

  /** A recognised credential type survives the conversion: it can be read back from the browser entry. */
  lemma IceCredentialRoundTrip(s: IceServerConfig)
    requires s.credentialType == Some(PASSWORD) || s.credentialType == Some(OAUTH)
    ensures CredentialTypeOf(ToRtcIceServer(s)) == s.credentialType
    ensures ToRtcIceServer(s).username == Some(s.username)
  {
  }

  /** Reads the credential-type code back from a browser entry. */
  function CredentialTypeOf(ice: RtcIceServer): Option<int> {
    if ice.credentialType == Some("password") then Some(PASSWORD)
    else if ice.credentialType == Some("oauth") then Some(OAUTH)
    else None
  }

  // ---------------------------------------------------------------------------
  // Conversation status
  // ---------------------------------------------------------------------------

  /** JavaScript truthiness of the two error fields: 0 and "" count as absent. */
  predicate HasError(s: ConversationState) {
    (s.errorCode.Some? && s.errorCode.value != 0) || (s.errorMessage.Some? && s.errorMessage.value != "")
  }

  /** `list?.length > 0`. */
  predicate NonEmpty(l: Option<seq<string>>) {
    l.Some? && |l.value| > 0
  }

  /** The status shown for a stored conversation. */
  function StatusOf(s: ConversationState): (st: ConversationStatus)
    ensures st == Failed <==> !s.isReceiver && HasError(s)
    ensures st == Sent <==> !s.isReceiver && !HasError(s) && !NonEmpty(s.receivedBy) && !NonEmpty(s.readBy)
    ensures st == Received <==>
      (s.isReceiver && s.read != Some(true)) || (!s.isReceiver && !HasError(s) && NonEmpty(s.receivedBy))
    ensures st == Read <==>
      (s.isReceiver && s.read == Some(true))
      || (!s.isReceiver && !HasError(s) && !NonEmpty(s.receivedBy) && NonEmpty(s.readBy))
  {
    if !s.isReceiver then
      if HasError(s) then Failed
      else if NonEmpty(s.receivedBy) then Received
      else if NonEmpty(s.readBy) then Read
      else Sent
    else if s.read == Some(true) then Read
    else Received
  }

  /** A received conversation is only ever RECEIVED or READ. */
  lemma ReceivedRecordStatus(s: ConversationState)
    requires s.isReceiver
    ensures StatusOf(s) in {Received, Read}
  {
  }

  /**
   * The delivery acknowledgement is checked before the read receipt, so a sent
   * record that has both shows RECEIVED: the usual sequence of acknowledgements
   * goes SENT, RECEIVED, and then stays RECEIVED. A read receipt without any
   * delivery acknowledgement shows READ.
   */
  lemma AcknowledgementSequence(s: ConversationState, received: seq<string>, read: seq<string>)
    requires !s.isReceiver && !HasError(s)
    requires |received| > 0 && |read| > 0
    ensures !NonEmpty(s.receivedBy) && !NonEmpty(s.readBy) ==> StatusOf(s) == Sent
    ensures StatusOf(s.(receivedBy := Some(received))) == Received
    ensures StatusOf(s.(receivedBy := Some(received), readBy := Some(read))) == Received
    ensures !NonEmpty(s.receivedBy) ==> StatusOf(s.(readBy := Some(read))) == Read
  {
  }

  /** An error on a sent record overrides every acknowledgement. */
  lemma ErrorOverridesAcknowledgements(s: ConversationState, code: int)
    requires !s.isReceiver && code != 0
    ensures StatusOf(s.(errorCode := Some(code))) == Failed
  {
  }

  // ---------------------------------------------------------------------------
  // Data-channel protocol
  // ---------------------------------------------------------------------------

  /** The per-peer event stream an incoming frame is pushed to. */
  datatype ChannelEvent = ReceiveMessageEvent | MessageReadEvent | MessageReceivedEvent | UserTypingEvent

  /** The stream each frame type is meant for. */
  function EventFor(t: MessagingType): ChannelEvent {
    match t
    case MessageNew => ReceiveMessageEvent
    case MessageRead => MessageReadEvent
    case MessageReceived => MessageReceivedEvent
    case Typing => UserTypingEvent
  }

  /** The switch on the `type` of a parsed incoming frame; an unknown type is ignored. */
  function Dispatch(wireType: string): (e: Option<ChannelEvent>)
    ensures e.None? <==> forall t :: WireName(t) != wireType
  {
    assert WireName(MessageNew) == "message:new" && WireName(MessageRead) == "message:read";
    assert WireName(MessageReceived) == "message:received" && WireName(Typing) == "user:typing";
    if wireType == "message:new" then Some(ReceiveMessageEvent)
    else if wireType == "message:read" then Some(MessageReadEvent)
    else if wireType == "message:received" then Some(MessageReceivedEvent)
    else if wireType == "user:typing" then Some(UserTypingEvent)
    else None
  }

  /** Different frame types go out under different names, so every frame reaches the stream meant for it. */
  lemma WireNamesDistinct(t: MessagingType, u: MessagingType)
    ensures WireName(t) == WireName(u) <==> t == u
    ensures Dispatch(WireName(t)) == Some(EventFor(t))
  {
  }

  /** `MessageNew` payload as `sendMessage` builds it: it has no `roomID`. */
  function NewMessagePayloadAsWritten(stored: ConversationState, message: Message): (p: NewMessagePayload)
    ensures p.roomID.None?
  {
    NewMessagePayload(stored.id, None, stored.sendAt, message.messageType, message.content)
  }

  /** `MessageNew` payload with the room it was sent to, as its interface declares it. */
  function NewMessagePayloadFor(roomID: string, stored: ConversationState, message: Message): (p: NewMessagePayload)
    ensures p.roomID == Some(roomID) && p.id == stored.id
  {
    NewMessagePayload(stored.id, Some(roomID), stored.sendAt, message.messageType, message.content)
  }

  /** The corrected payload is the one as written with the room filled in, and nothing else changed. */
  lemma PayloadCorrectionOnlyAddsRoom(roomID: string, stored: ConversationState, message: Message)
    ensures NewMessagePayloadFor(roomID, stored, message) == NewMessagePayloadAsWritten(stored, message).(roomID := Some(roomID))
  {
  }

  /** What the receiving side hands to its conversation manager for a `MessageNew` frame from `peerID`. */
  function ReceivePayloadOf(peerID: string, p: NewMessagePayload): (r: ReceiveMessagePayload)
    ensures r.senderID == peerID
    ensures r.id == p.id && r.roomID == p.roomID && r.sentAt == p.sendAt
    ensures r.messageType == p.messageType && r.content == p.messageContent
  {
    ReceiveMessagePayload(p.id, p.roomID, peerID, p.messageContent, p.messageType, p.sendAt)
  }

  /** As written, the receiving side never learns the room of an incoming message. */
  lemma IncomingRoomLostAsWritten(peerID: string, stored: ConversationState, message: Message)
    ensures ReceivePayloadOf(peerID, NewMessagePayloadAsWritten(stored, message)).roomID == None
  {
  }

  /** With the room in the payload, the receiver records the sender's conversation id, room, content, type and time. */
  lemma IncomingRoundTrip(peerID: string, roomID: string, stored: ConversationState, message: Message)
    ensures ReceivePayloadOf(peerID, NewMessagePayloadFor(roomID, stored, message))
         == ReceiveMessagePayload(stored.id, Some(roomID), peerID, message.content, message.messageType, stored.sendAt)
  {
  }

  // ---------------------------------------------------------------------------
  // Peer directory
  // ---------------------------------------------------------------------------

  /** The directory entry of one peer (the `UserChannel` record, without its WebRTC objects and streams). */
  datatype ChannelRec = ChannelRec(
    id: string, name: string, photo: string, connected: bool, roomIDs: seq<string>,
    hasSendChannel: bool, hasReceiveChannel: bool)

  /** A fresh entry: not connected, no data channels, no rooms. */
  function NewChannel(u: PBUser): ChannelRec {
    ChannelRec(u.id, u.name, u.photo, false, [], false, false)
  }

  /** What the client asks of WebRTC. */
  datatype Effect =
    | Send(to: string, frame: Frame)
    | Negotiate(peer: string)
    | CloseSend(peer: string)
    | CloseReceive(peer: string)

  /** The close calls of `disconnectToChannel`, and whether it then throws (a data channel it closes is missing). */
  datatype Closing = Closing(effects: seq<Effect>, threw: bool)

  /** `disconnectToChannel` on the entry `ch` of peer `id`. */
  function ClosingOf(id: string, ch: Option<ChannelRec>): (c: Closing)
    ensures (ch.None? || !ch.value.connected) ==> c == Closing([], false)
    ensures ch.Some? && ch.value.connected && ch.value.hasSendChannel ==>
      c.effects == if ch.value.hasReceiveChannel then [CloseSend(id), CloseReceive(id)] else [CloseSend(id)]
    ensures ch.Some? && ch.value.connected && !ch.value.hasSendChannel ==> c.effects == []
    ensures c.threw <==> ch.Some? && ch.value.connected && !(ch.value.hasSendChannel && ch.value.hasReceiveChannel)
  {
    if ch.None? || !ch.value.connected then Closing([], false)
    else if !ch.value.hasSendChannel then Closing([], true)
    else if !ch.value.hasReceiveChannel then Closing([CloseSend(id)], true)
    else Closing([CloseSend(id), CloseReceive(id)], false)
  }

  function Lookup(chans: map<string, ChannelRec>, id: string): Option<ChannelRec> {
    if id in chans then Some(chans[id]) else None
  }

  /** Every entry is stored under its own id. */
  ghost predicate DirectoryValid(chans: map<string, ChannelRec>) {
    forall id :: id in chans ==> chans[id].id == id
  }

  /** No entry records room membership: nothing in the client ever adds to `roomIDs`. */
  ghost predicate NoRoomMembership(chans: map<string, ChannelRec>) {
    forall id :: id in chans ==> chans[id].roomIDs == []
  }

  /** `a` and `b` agree on every key but `key`. */
  ghost predicate SameExcept(a: map<string, ChannelRec>, b: map<string, ChannelRec>, key: string) {
    forall k :: k != key ==> (k in a <==> k in b) && (k in a ==> a[k] == b[k])
  }

  /** The peer a room event is about; room-level events have none. */
  function Subject(ev: RoomEvent): Option<string> {
    match ev
    case UserLeftRoom(_, p) => Some(p)
    case UserJoinedRoom(_, p) => Some(p)
    case UserProfileUpdated(u) => Some(u.id)
    case UserRemoved(u) => Some(u.id)
    case _ => None
  }

  /** The `USERLEFTROOM` guard: the peer's entry lists this room and no other. */
  predicate LeavesLastRoom(ch: ChannelRec, roomID: string) {
    roomID in ch.roomIDs && |ch.roomIDs| == 1
  }

  /** `destroyUserChannel`: close the peer's channels, then delete its entry unless closing threw. */
  function Destroy(chans: map<string, ChannelRec>, id: string): (r: map<string, ChannelRec>)
    ensures ClosingOf(id, Lookup(chans, id)).threw ==> r == chans
    ensures !ClosingOf(id, Lookup(chans, id)).threw ==> id !in r
    ensures SameExcept(chans, r, id)
  {
    if ClosingOf(id, Lookup(chans, id)).threw then chans else chans - {id}
  }

  /** The directory after one room event. */
  function DirectoryAfter(chans: map<string, ChannelRec>, ev: RoomEvent): (r: map<string, ChannelRec>)
    ensures Subject(ev).None? ==> r == chans
    ensures Subject(ev).Some? ==> SameExcept(chans, r, Subject(ev).value)
    ensures ev.UserJoinedRoom? ==>
      ev.participantID in r
      && r[ev.participantID] == (if ev.participantID in chans then chans[ev.participantID]
                                 else NewChannel(PBUser(ev.participantID, ev.participantID, "")))
    ensures ev.UserLeftRoom? ==>
      (ev.participantID in r <==>
        (ev.participantID in chans
         && !(LeavesLastRoom(chans[ev.participantID], ev.roomID)
              && !ClosingOf(ev.participantID, Some(chans[ev.participantID])).threw)))
      && (ev.participantID in r ==> r[ev.participantID] == chans[ev.participantID])
    ensures ev.UserProfileUpdated? ==>
      (ev.user.id in r <==> ev.user.id in chans)
      && (ev.user.id in r ==> r[ev.user.id] == chans[ev.user.id].(name := ev.user.name, photo := ev.user.photo))
    ensures ev.UserRemoved? ==>
      (ev.user.id in r <==> ev.user.id in chans && ClosingOf(ev.user.id, Some(chans[ev.user.id])).threw)
      && (ev.user.id in r ==> r[ev.user.id] == chans[ev.user.id])
  {
    match ev
    case UserJoinedRoom(_, p) =>
      if p in chans then chans else chans[p := NewChannel(PBUser(p, p, ""))]
    case UserLeftRoom(roomID, p) =>
      if p in chans && LeavesLastRoom(chans[p], roomID) then Destroy(chans, p) else chans
    case UserProfileUpdated(u) =>
      if u.id in chans then chans[u.id := chans[u.id].(name := u.name, photo := u.photo)] else chans
    case UserRemoved(u) =>
      if u.id in chans then Destroy(chans, u.id) else chans
    case _ => chans
  }

  /** Room events keep the directory invariant and never add room membership. */
  lemma DirectoryAfterKeepsInvariants(chans: map<string, ChannelRec>, ev: RoomEvent)
    ensures DirectoryValid(chans) ==> DirectoryValid(DirectoryAfter(chans, ev))
    ensures NoRoomMembership(chans) ==> NoRoomMembership(DirectoryAfter(chans, ev))
  {
  }

  /** Since no entry ever records a room, a `USERLEFTROOM` event never removes a peer. */
  lemma LeftRoomNeverRemoves(chans: map<string, ChannelRec>, roomID: string, peer: string)
    requires NoRoomMembership(chans)
    ensures DirectoryAfter(chans, UserLeftRoom(roomID, peer)) == chans
  {
  }

  // ---------------------------------------------------------------------------
  // Collecting the participants of all rooms
  // ---------------------------------------------------------------------------

  /** The members of all rooms, room after room. */
  function Members(rooms: seq<PBRoom>): seq<PBUser> {
    if rooms == [] then [] else Members(rooms[..|rooms| - 1]) + rooms[|rooms| - 1].users
  }

  function Ids(us: seq<PBUser>): (r: seq<string>)
    ensures |r| == |us| && forall i :: 0 <= i < |us| ==> r[i] == us[i].id
  {
    seq(|us|, i requires 0 <= i < |us| => us[i].id)
  }

  /** The list `makeChannels` builds: a user is appended when its id is not yet in the list. */
  function Distinct(us: seq<PBUser>): (r: seq<PBUser>)
    ensures |r| <= |us|
    ensures forall u :: u in r ==> u in us
  {
    if us == [] then []
    else
      var d := Distinct(us[..|us| - 1]);
      var u := us[|us| - 1];
      if u.id in Ids(d) then d else d + [u]
  }

  /** `us[i]` is the first user with its id. */
  ghost predicate IsFirst(us: seq<PBUser>, i: int)
    requires 0 <= i < |us|
  {
    forall j :: 0 <= j < i ==> us[j].id != us[i].id
  }

  /** Reference definition: the users of `us[..n]` that are the first with their id, in their order. */
  ghost function FirstOccurrences(us: seq<PBUser>, n: nat): seq<PBUser>
    requires n <= |us|
  {
    if n == 0 then [] else FirstOccurrences(us, n - 1) + (if IsFirst(us, n - 1) then [us[n - 1]] else [])
  }

  /** The collected list has each id of the input once, and only ids of the input. */
  lemma {:induction false} DistinctIds(us: seq<PBUser>)
    ensures NoDup(Ids(Distinct(us)))
    ensures forall id :: id in Ids(Distinct(us)) <==> id in Ids(us)
    ensures forall u :: u in Distinct(us) ==> u in us
  {
    if us != [] {
      var p := us[..|us| - 1];
      DistinctIds(p);
      assert us == p + [us[|us| - 1]];
      var d := Distinct(p);
      var u := us[|us| - 1];
      if u.id !in Ids(d) {
        assert Ids(d + [u]) == Ids(d) + [u.id];
      }
      forall id | id in Ids(us) ensures id in Ids(Distinct(us)) {
        var i :| 0 <= i < |us| && us[i].id == id;
        if i < |p| { assert Ids(p)[i] == id; }
      }
      forall id | id in Ids(Distinct(us)) ensures id in Ids(us) {
        if id in Ids(d) {
          var i :| 0 <= i < |p| && Ids(p)[i] == id;
          assert us[i].id == id;
        } else {
          assert Ids(us)[|us| - 1] == id;
        }
      }
    }
  }

  /** `makeChannels` keeps the first user of each id, in order of first appearance. */
  lemma {:induction false} DistinctIsFirstOccurrences(us: seq<PBUser>, n: nat)
    requires n <= |us|
    ensures Distinct(us[..n]) == FirstOccurrences(us, n)
  {
    if n > 0 {
      DistinctIsFirstOccurrences(us, n - 1);
      var p := us[..n - 1];
      assert us[..n][..n - 1] == p;
      DistinctIds(p);
      var u := us[n - 1];
      if !IsFirst(us, n - 1) {
        var j :| 0 <= j < n - 1 && us[j].id == u.id;
        assert Ids(p)[j] == u.id;
      }
    }
  }

  /** One more user: appended exactly when its id has not been collected yet. */
  lemma DistinctSnoc(xs: seq<PBUser>, u: PBUser)
    ensures Distinct(xs + [u]) == if u.id in Ids(Distinct(xs)) then Distinct(xs) else Distinct(xs) + [u]
  {
  }

  /** The members of one more room follow those of the rooms before it. */
  lemma MembersSnoc(rooms: seq<PBRoom>, i: nat)
    requires i < |rooms|
    ensures Members(rooms[..i + 1]) == Members(rooms[..i]) + rooms[i].users
  {
    assert rooms[..i + 1][..i] == rooms[..i];
  }

  lemma IdsSnoc(us: seq<PBUser>, u: PBUser)
    ensures Ids(us + [u]) == Ids(us) + [u.id]
  {
  }

  /** The inner loop of the collection step: the users of one room, appended when their id is new. */
  method CollectRoom(ghost before: seq<PBUser>, userIds0: seq<string>, users0: seq<PBUser>, roomUsers: seq<PBUser>)
    returns (userIds: seq<string>, users: seq<PBUser>)
    requires users0 == Distinct(before) && userIds0 == Ids(users0)
    ensures users == Distinct(before + roomUsers)
    ensures userIds == Ids(users)
  {
    userIds, users := userIds0, users0;
    assert before + roomUsers[..0] == before;
    for j := 0 to |roomUsers|
      invariant users == Distinct(before + roomUsers[..j])
      invariant userIds == Ids(users)
    {
      var u := roomUsers[j];
      assert before + roomUsers[..j + 1] == (before + roomUsers[..j]) + [u];
      DistinctSnoc(before + roomUsers[..j], u);
      if u.id !in userIds {
        IdsSnoc(users, u);
        userIds := userIds + [u.id];
        users := users + [u];
      }
    }
    assert roomUsers[..|roomUsers|] == roomUsers;
  }

  /** `makeChannels`' collection step: the user ids and users of all rooms, without duplicates. */
  method CollectParticipants(rooms: seq<PBRoom>) returns (userIds: seq<string>, users: seq<PBUser>)
    ensures users == Distinct(Members(rooms))
    ensures userIds == Ids(users)
  {
    userIds, users := [], [];
    for i := 0 to |rooms|
      invariant users == Distinct(Members(rooms[..i]))
      invariant userIds == Ids(users)
    {
      MembersSnoc(rooms, i);
      userIds, users := CollectRoom(Members(rooms[..i]), userIds, users, rooms[i].users);
    }
    assert rooms[..|rooms|] == rooms;
  }

  /** The directory after creating one entry per user of `us`, in order (a later user of an id replaces an earlier one). */
  function RegisterAll(chans: map<string, ChannelRec>, us: seq<PBUser>): (r: map<string, ChannelRec>)
    ensures chans.Keys <= r.Keys
    ensures forall i :: 0 <= i < |us| ==> us[i].id in r
    ensures |us| > 0 ==> r[us[|us| - 1].id] == NewChannel(us[|us| - 1])
  {
    if us == [] then chans
    else
      RegisterAll(chans, us[..|us| - 1])[us[|us| - 1].id := NewChannel(us[|us| - 1])]
  }

  /** Registering users with distinct ids gives each its own fresh entry and leaves every other entry alone. */
  lemma {:induction false} RegisterAllEntries(chans: map<string, ChannelRec>, us: seq<PBUser>)
    requires NoDup(Ids(us))
    ensures forall i :: 0 <= i < |us| ==> us[i].id in RegisterAll(chans, us) && RegisterAll(chans, us)[us[i].id] == NewChannel(us[i])
    ensures forall k :: k !in Ids(us) ==> (k in RegisterAll(chans, us) <==> k in chans)
    ensures forall k :: k !in Ids(us) && k in chans ==> RegisterAll(chans, us)[k] == chans[k]
  {
    if us != [] {
      var p := us[..|us| - 1];
      assert Ids(p) == Ids(us)[..|us| - 1];
      RegisterAllEntries(chans, p);
    }
  }

  /** Registering fresh entries keeps the directory invariant and adds no room membership. */
  lemma {:induction false} RegisterAllKeepsInvariants(chans: map<string, ChannelRec>, us: seq<PBUser>)
    ensures DirectoryValid(chans) ==> DirectoryValid(RegisterAll(chans, us))
    ensures NoRoomMembership(chans) ==> NoRoomMembership(RegisterAll(chans, us))
  {
    if us != [] { RegisterAllKeepsInvariants(chans, us[..|us| - 1]); }
  }

  /** One `Connect` request per collected id, in order. */
  function ConnectAll(ids: seq<string>): (r: seq<Effect>)
    ensures |r| == |ids| && forall i :: 0 <= i < |ids| ==> r[i] == Negotiate(ids[i])
  {
    seq(|ids|, i requires 0 <= i < |ids| => Negotiate(ids[i]))
  }

  // ---------------------------------------------------------------------------
  // The client
  // ---------------------------------------------------------------------------

  /** Which events the room-event handler forwards to the user interface. */
  datatype ClientEvent =
    | RoomCreatedEvent(room: Room)
    | RoomUpdatedEvent(room: Room)
    | RoomDestroyedEvent(room: Room)
    | UserJoinRoomEvent(joined: UserInRoom)
    | UserLeftRoomEvent(left: UserInRoom)
    | UserProfileUpdatedEvent(user: User)
    | UserRemovedEvent(user: User)

  /** What handling one room event produced: WebRTC requests, the forwarded event, and whether the handler threw. */
  datatype RoomEventOutcome = RoomEventOutcome(effects: seq<Effect>, event: Option<ClientEvent>, threw: bool)

  /** The frames a fan-out sent, and the error that stopped it, if any. */
  datatype FanOutcome = FanOutcome(sent: seq<Effect>, failure: Option<string>)

  /** What a call that fans out produced: the frames sent, then the value returned or the error thrown. */
  datatype Outcome<T> = Outcome(effects: seq<Effect>, result: Result<T>)

  /** `sendMessage`: what was handed to the conversation manager (nothing when the room is unknown), and the outcome. */
  datatype SendOutcome = SendOutcome(request: Option<MessageSendPayload>, outcome: Outcome<Conversation>)

  /** A room event carries its room's profile and no participants. */
  function RoomOf(r: RoomInstance): Room {
    Room(r.id, r.name, r.photo, r.description, [])
  }

  class Client {
    /** Id of the signed-in user (the profile returned when connecting). */
    const profileID: string
    var iceServers: seq<RtcIceServer>
    /** The cached room list of the last `connect`. */
    var rooms: seq<PBRoom>
    /** The peer directory, keyed by user id. */
    var channels: map<string, ChannelRec>

    ghost predicate Valid()
      reads this
    {
      DirectoryValid(channels)
    }

    constructor(profileID: string)
      ensures Valid() && NoRoomMembership(channels)
      ensures this.profileID == profileID && iceServers == [] && rooms == [] && channels == map[]
    {
      this.profileID := profileID;
      iceServers := [];
      rooms := [];
      channels := map[];
    }

    /** `getUserbyID`: the directory's view of a peer, or a placeholder named by its id. */
    function UserByID(id: string): (u: User)
      requires Valid()
      reads this
      ensures u.id == id
      ensures u.online <==> id in channels && channels[id].connected
      ensures u.photo.Some? <==> id in channels
      ensures u.name == (if id in channels then channels[id].name else id)
      ensures id in channels ==> u.photo == Some(channels[id].photo)
    {
      if id in channels then
        var ch := channels[id];
        User(ch.id, ch.name, Some(ch.photo), ch.connected)
      else User(id, id, None, false)
    }

    /** The `online` flag `getRooms` gives a participant. */
    function ParticipantOnline(id: string): (b: bool)
      reads this
      ensures b <==> id in channels && channels[id].connected
    {
      if id in channels then channels[id].connected else false
    }

    /** `getRooms` and `getUserbyID` agree on whether a peer is online. */
    lemma OnlineViewsAgree(id: string)
      requires Valid()
      ensures ParticipantOnline(id) == UserByID(id).online
    {
    }

    /** `mapConversationFromState` as written: it fills neither `isReceiver` nor `roomID`. */
    function MapConversationFromStateAsWritten(s: ConversationState): (c: Conversation)
      requires Valid()
      reads this
      ensures c.isReceiver.None? && c.roomID.None?
      ensures c.status == StatusOf(s) && c.sender == Some(UserByID(s.senderID))
    {
      Conversation(s.id, None, None, s.sendAt, Message(s.messageType, Some(s.messageContent)),
                   StatusOf(s), Some(UserByID(s.senderID)))
    }

    /** `mapConversationFromState` with every field the conversation interface declares. */
    function MapConversationFromState(s: ConversationState): (c: Conversation)
      requires Valid()
      reads this
      ensures c.id == s.id && c.sendAt == s.sendAt
      ensures c.isReceiver == Some(s.isReceiver) && c.roomID == Some(s.roomID)
      ensures c.message == Message(s.messageType, Some(s.messageContent))
      ensures c.status == StatusOf(s)
      ensures c.sender == Some(UserByID(s.senderID))
      ensures c.sender.value.id == s.senderID
      ensures c.sender.value.online <==> s.senderID in channels && channels[s.senderID].connected
    {
      Conversation(s.id, Some(s.isReceiver), Some(s.roomID), s.sendAt, Message(s.messageType, Some(s.messageContent)),
                   StatusOf(s), Some(UserByID(s.senderID)))
    }

    /** The two mappings differ only in the two fields the one as written leaves out. */
    lemma MappingCorrectionOnlyAddsFields(s: ConversationState)
      requires Valid()
      ensures MapConversationFromState(s)
           == MapConversationFromStateAsWritten(s).(isReceiver := Some(s.isReceiver), roomID := Some(s.roomID))
    {
    }

    /** `sendChannelMessage`: a frame goes out only through an existing, connected send channel. */
    function SendChannelMessage(id: string, frame: Frame): (r: Result<Effect>)
      reads this
      ensures r.Ok? <==> id in channels && channels[id].hasSendChannel && channels[id].connected
      ensures r.Ok? ==> r.value == Send(id, frame)
      ensures id !in channels ==> r == Err("channel not exists")
      ensures id in channels && r.Err? ==> r == Err("user " + id + " offline")
    {
      if id !in channels then Err("channel not exists")
      else if !channels[id].hasSendChannel || !channels[id].connected then Err("user " + id + " offline")
      else Ok(Send(id, frame))
    }

    /** `disconnectToChannel`: nothing for a missing or unconnected peer. */
    function DisconnectToChannel(id: string): (c: Closing)
      reads this
      ensures (id !in channels || !channels[id].connected) ==> c == Closing([], false)
      ensures id in channels && channels[id].connected && channels[id].hasSendChannel ==>
        c.effects == if channels[id].hasReceiveChannel then [CloseSend(id), CloseReceive(id)] else [CloseSend(id)]
      ensures id in channels && channels[id].connected && !channels[id].hasSendChannel ==> c.effects == []
      ensures c.threw <==>
        id in channels && channels[id].connected && !(channels[id].hasSendChannel && channels[id].hasReceiveChannel)
    {
      ClosingOf(id, Lookup(channels, id))
    }

    /** A frame to `id` goes out: its entry exists, is connected and has a send channel. */
    predicate Deliverable(id: string)
      reads this
    {
      id in channels && channels[id].connected && channels[id].hasSendChannel
    }

    /** The fan-out does not skip `id`, yet `sendChannelMessage` refuses it: connected without a send channel. */
    predicate Stuck(id: string)
      reads this
    {
      id in channels && channels[id].connected && !channels[id].hasSendChannel
    }

    /** The position of the first stuck participant, or the length of the list when none is stuck. */
    function FirstStuck(participants: seq<string>): (k: nat)
      reads this
      ensures k <= |participants|
      ensures forall j :: 0 <= j < k ==> !Stuck(participants[j])
      ensures k < |participants| ==> Stuck(participants[k])
    {
      if participants == [] then 0
      else if Stuck(participants[0]) then 0
      else 1 + FirstStuck(participants[1..])
    }

    /** Reference for what a fan-out sends: one frame to each deliverable participant, in list order. */
    function SendsTo(participants: seq<string>, frame: Frame): (sent: seq<Effect>)
      reads this
      ensures forall e :: e in sent <==> e.Send? && e.frame == frame && e.to in participants && Deliverable(e.to)
    {
      if participants == [] then []
      else (if Deliverable(participants[0]) then [Send(participants[0], frame)] else []) + SendsTo(participants[1..], frame)
    }

    /**
     * The fan-out of `sendMessage`, `readMessage` and `typing`: participants without
     * an entry or not connected are skipped; the others get the frame through
     * `sendChannelMessage`, whose error stops the fan-out.
     */
    function FanOut(participants: seq<string>, frame: Frame): (r: FanOutcome)
      reads this
      ensures |r.sent| <= |participants|
      ensures forall e :: e in r.sent ==> e.Send? && e.frame == frame && e.to in participants && Deliverable(e.to)
      ensures r.failure.None? <==> forall id :: id in participants ==> !Stuck(id)
      ensures r.failure.None? ==> forall id :: id in participants && Deliverable(id) ==> Send(id, frame) in r.sent
      ensures r.failure.Some? ==> exists id :: id in participants && Stuck(id) && r.failure.value == "user " + id + " offline"
      ensures r.failure.None? <==> FirstStuck(participants) == |participants|
      ensures r.failure.Some? ==> r.failure.value == "user " + participants[FirstStuck(participants)] + " offline"
      ensures r.sent == SendsTo(participants[..FirstStuck(participants)], frame)
    {
      if participants == [] then FanOutcome([], None)
      else
        var id := participants[0];
        if id !in channels || !channels[id].connected then
          assert participants[..FirstStuck(participants)][1..] == participants[1..][..FirstStuck(participants[1..])];
          FanOut(participants[1..], frame)
        else match SendChannelMessage(id, frame)
          case Err(e) =>
            assert participants[0] == id && Stuck(id);
            FanOutcome([], Some(e))
          case Ok(effect) =>
            var rest := FanOut(participants[1..], frame);
            assert participants[..FirstStuck(participants)][1..] == participants[1..][..FirstStuck(participants[1..])];
            FanOutcome([effect] + rest.sent, rest.failure)
    }

    /** With no participant stuck, the fan-out reaches exactly the deliverable participants. */
    lemma FanOutReachesExactly(participants: seq<string>, frame: Frame, id: string)
      requires forall p :: p in participants ==> !Stuck(p)
      ensures Send(id, frame) in FanOut(participants, frame).sent <==> id in participants && Deliverable(id)
    {
    }

    /** The participants of the cached room `roomID`, or the "room not found!" error. */
    function RoomParticipants(roomID: string): (r: Result<seq<string>>)
      reads this
      ensures r.Err? <==> forall i :: 0 <= i < |rooms| ==> rooms[i].id != roomID
      ensures r.Err? ==> r.error == "room not found!"
      ensures r.Ok? ==> exists i :: 0 <= i < |rooms| && rooms[i].id == roomID
                              && (forall j :: 0 <= j < i ==> rooms[j].id != roomID) && r.value == Ids(rooms[i].users)
    {
      var i := FindIndex(rooms, (room: PBRoom) => room.id == roomID);
      if i == -1 then Err("room not found!") else Ok(Ids(rooms[i].users))
    }

    /** A fan-out to the room's participants, then `value` unless the fan-out failed. */
    function FanOutThen<T>(participants: seq<string>, frame: Frame, value: T): (o: Outcome<T>)
      reads this
      ensures o.effects == FanOut(participants, frame).sent
      ensures o.result.Ok? <==> forall id :: id in participants ==> !Stuck(id)
      ensures o.result.Ok? ==> o.result.value == value
      ensures o.result.Err? ==> o.result.error == FanOut(participants, frame).failure.value
    {
      var fan := FanOut(participants, frame);
      Outcome(fan.sent, if fan.failure.Some? then Err(fan.failure.value) else Ok(value))
    }

    /**
     * `sendMessage`: `newID` is the generated conversation id and `stored` the
     * record the conversation manager returns for the request.
     */
    function SendMessage(roomID: string, message: Message, newID: string, stored: ConversationState): (r: SendOutcome)
      requires Valid()
      reads this
      ensures RoomParticipants(roomID).Err? ==> r == SendOutcome(None, Outcome([], Err("room not found!")))
      ensures RoomParticipants(roomID).Ok? ==>
        var participants := RoomParticipants(roomID).value;
        var frame := Frame(MessageNew, NewMessage(NewMessagePayloadFor(roomID, stored, message)));
        && r.request == Some(MessageSendPayload(newID, roomID, profileID, message.messageType, message.content))
        && r.outcome == FanOutThen(participants, frame, MapConversationFromState(stored))
    {
      match RoomParticipants(roomID)
      case Err(e) => SendOutcome(None, Outcome([], Err(e)))
      case Ok(participants) =>
        var request := MessageSendPayload(newID, roomID, profileID, message.messageType, message.content);
        var frame := Frame(MessageNew, NewMessage(NewMessagePayloadFor(roomID, stored, message)));
        SendOutcome(Some(request), FanOutThen(participants, frame, MapConversationFromState(stored)))
    }

    /** `readMessage`: read receipts to the participants, then the stored record `stored` as a conversation. */
    function ReadMessage(roomID: string, conversationID: string, stored: ConversationState): (r: Outcome<Conversation>)
      requires Valid()
      reads this
      ensures RoomParticipants(roomID).Err? ==> r == Outcome([], Err("room not found!"))
      ensures RoomParticipants(roomID).Ok? ==>
        r == FanOutThen(RoomParticipants(roomID).value, Frame(MessageRead, ReadBy(conversationID, profileID)),
                        MapConversationFromState(stored))
    {
      match RoomParticipants(roomID)
      case Err(e) => Outcome([], Err(e))
      case Ok(participants) =>
        FanOutThen(participants, Frame(MessageRead, ReadBy(conversationID, profileID)), MapConversationFromState(stored))
    }

    /** `typing`: typing notices to the participants of the room. */
    function TypingNotice(roomID: string): (r: Outcome<()>)
      reads this
      ensures RoomParticipants(roomID).Err? ==> r == Outcome([], Err("room not found!"))
      ensures RoomParticipants(roomID).Ok? ==>
        r == FanOutThen(RoomParticipants(roomID).value, Frame(Typing, TypingOf(roomID, profileID)), ())
    {
      match RoomParticipants(roomID)
      case Err(e) => Outcome([], Err(e))
      case Ok(participants) => FanOutThen(participants, Frame(Typing, TypingOf(roomID, profileID)), ())
    }

    /** `createUserChannel` (directory part): a fresh entry for `user`, replacing any earlier one. */
    method CreateUserChannel(user: PBUser)
      requires Valid()
      modifies this`channels
      ensures Valid()
      ensures channels == old(channels)[user.id := NewChannel(user)]
      ensures old(NoRoomMembership(channels)) ==> NoRoomMembership(channels)
    {
      channels := channels[user.id := NewChannel(user)];
    }

    /** `destroyUserChannel`: close the peer's channels, then delete its entry unless closing threw. */
    method DestroyUserChannel(id: string) returns (c: Closing)
      requires Valid()
      modifies this`channels
      ensures Valid()
      ensures c == ClosingOf(id, Lookup(old(channels), id))
      ensures channels == Destroy(old(channels), id)
      ensures channels == if c.threw then old(channels) else old(channels) - {id}
    {
      c := DisconnectToChannel(id);
      if !c.threw {
        channels := channels - {id};
      }
    }

    /**
     * `makeChannels` without the subscriptions: collect the participants of all
     * rooms, create one entry per collected id, and ask to connect to each.
     */
    method MakeChannels(rooms: seq<PBRoom>) returns (effects: seq<Effect>)
      requires Valid()
      modifies this`channels
      ensures Valid()
      ensures channels == RegisterAll(old(channels), Distinct(Members(rooms)))
      ensures effects == ConnectAll(Ids(Distinct(Members(rooms))))
      ensures old(NoRoomMembership(channels)) ==> NoRoomMembership(channels)
    {
      ghost var start := channels;
      var userIds, users := CollectParticipants(rooms);
      for k := 0 to |users|
        invariant channels == RegisterAll(start, users[..k])
        invariant Valid()
        invariant NoRoomMembership(start) ==> NoRoomMembership(channels)
      {
        assert users[..k + 1][..k] == users[..k];
        CreateUserChannel(users[k]);
      }
      assert users[..|users|] == users;
      effects := ConnectAll(userIds);
    }

    /** The deterministic part of `connect`: ICE configuration, the cached rooms, and the directory. */
    method Connect(servers: seq<IceServerConfig>, myRooms: seq<PBRoom>) returns (effects: seq<Effect>)
      requires Valid()
      modifies this
      ensures Valid()
      ensures iceServers == ToRtcIceServers(servers) && rooms == myRooms
      ensures channels == RegisterAll(old(channels), Distinct(Members(myRooms)))
      ensures effects == ConnectAll(Ids(Distinct(Members(myRooms))))
      ensures old(NoRoomMembership(channels)) ==> NoRoomMembership(channels)
    {
      iceServers := ToRtcIceServers(servers);
      rooms := myRooms;
      effects := MakeChannels(myRooms);
    }

    /**
     * The directory part of `connectToChannel`: the peer's entry gets a send
     * channel; `ok` is false when there is no entry ("channel not exists").
     */
    method SendChannelCreated(id: string) returns (ok: bool)
      requires Valid()
      modifies this`channels
      ensures Valid()
      ensures ok == (id in old(channels))
      ensures channels == if ok then old(channels)[id := old(channels)[id].(hasSendChannel := true)] else old(channels)
      ensures old(NoRoomMembership(channels)) ==> NoRoomMembership(channels)
    {
      ok := id in channels;
      if ok {
        channels := channels[id := channels[id].(hasSendChannel := true)];
      }
    }

    /** The send channel's open callback: the peer is connected (setting the flag throws for a deleted peer). */
    method ChannelOpened(id: string) returns (ok: bool)
      requires Valid()
      modifies this`channels
      ensures Valid()
      ensures ok == (id in old(channels))
      ensures channels == if ok then old(channels)[id := old(channels)[id].(connected := true)] else old(channels)
      ensures old(NoRoomMembership(channels)) ==> NoRoomMembership(channels)
    {
      ok := id in channels;
      if ok {
        channels := channels[id := channels[id].(connected := true)];
      }
    }

    /** The send channel's close callback: the peer is no longer connected. */
    method ChannelClosed(id: string) returns (ok: bool)
      requires Valid()
      modifies this`channels
      ensures Valid()
      ensures ok == (id in old(channels))
      ensures channels == if ok then old(channels)[id := old(channels)[id].(connected := false)] else old(channels)
      ensures old(NoRoomMembership(channels)) ==> NoRoomMembership(channels)
    {
      ok := id in channels;
      if ok {
        channels := channels[id := channels[id].(connected := false)];
      }
    }

    /** The receiving connection's data-channel callback: the peer's receive channel is attached. */
    method ReceiveChannelAttached(id: string) returns (ok: bool)
      requires Valid()
      modifies this`channels
      ensures Valid()
      ensures ok == (id in old(channels))
      ensures channels == if ok then old(channels)[id := old(channels)[id].(hasReceiveChannel := true)] else old(channels)
      ensures old(NoRoomMembership(channels)) ==> NoRoomMembership(channels)
    {
      ok := id in channels;
      if ok {
        channels := channels[id := channels[id].(hasReceiveChannel := true)];
      }
    }

    /** The room-event handler of `handleRoomEvents`. */
    method HandleRoomEvent(ev: RoomEvent) returns (out: RoomEventOutcome)
      requires Valid()
      modifies this`channels
      ensures Valid()
      ensures channels == DirectoryAfter(old(channels), ev)
      ensures old(NoRoomMembership(channels)) ==> NoRoomMembership(channels)
      ensures ev.RoomCreated? ==> out == RoomEventOutcome([], Some(RoomCreatedEvent(RoomOf(ev.room))), false)
      ensures ev.RoomProfileUpdated? ==> out == RoomEventOutcome([], Some(RoomUpdatedEvent(RoomOf(ev.room))), false)
      ensures ev.RoomDestroyed? ==> out == RoomEventOutcome([], Some(RoomDestroyedEvent(RoomOf(ev.room))), false)
      ensures ev.UserRegistered? ==> out == RoomEventOutcome([], None, false)
      ensures ev.UserJoinedRoom? ==>
        && out.effects == (if ev.participantID in old(channels) then [] else [Negotiate(ev.participantID)])
        && out.event == Some(UserJoinRoomEvent(UserInRoom(ev.roomID, UserByID(ev.participantID))))
        && !out.threw
      ensures ev.UserLeftRoom? ==>
        var p := ev.participantID;
        var leaving := p in old(channels) && LeavesLastRoom(old(channels)[p], ev.roomID);
        && out.effects == (if leaving then ClosingOf(p, Some(old(channels)[p])).effects else [])
        && out.threw == (leaving && ClosingOf(p, Some(old(channels)[p])).threw)
        && out.event == (if out.threw then None else Some(UserLeftRoomEvent(UserInRoom(ev.roomID, old(UserByID(p))))))
      ensures ev.UserProfileUpdated? ==>
        out == RoomEventOutcome([], Some(UserProfileUpdatedEvent(UserByID(ev.user.id))), false)
      ensures ev.UserRemoved? ==>
        && out.event == Some(UserRemovedEvent(old(UserByID(ev.user.id))))
        && out.effects == ClosingOf(ev.user.id, Lookup(old(channels), ev.user.id)).effects
        && out.threw == ClosingOf(ev.user.id, Lookup(old(channels), ev.user.id)).threw
    {
      DirectoryAfterKeepsInvariants(channels, ev);
      match ev
      case RoomCreated(r) =>
        out := RoomEventOutcome([], Some(RoomCreatedEvent(RoomOf(r))), false);
      case RoomProfileUpdated(r) =>
        out := RoomEventOutcome([], Some(RoomUpdatedEvent(RoomOf(r))), false);
      case RoomDestroyed(r) =>
        out := RoomEventOutcome([], Some(RoomDestroyedEvent(RoomOf(r))), false);
      case UserRegistered(_) =>
        out := RoomEventOutcome([], None, false);
      case UserJoinedRoom(roomID, p) =>
        var effects := [];
        if p !in channels {
          CreateUserChannel(PBUser(p, p, ""));
          effects := [Negotiate(p)];
        }
        out := RoomEventOutcome(effects, Some(UserJoinRoomEvent(UserInRoom(roomID, UserByID(p)))), false);
      case UserLeftRoom(roomID, p) =>
        var user := UserByID(p);
        if p in channels && LeavesLastRoom(channels[p], roomID) {
          var c := DestroyUserChannel(p);
          if c.threw {
            out := RoomEventOutcome(c.effects, None, true);
          } else {
            out := RoomEventOutcome(c.effects, Some(UserLeftRoomEvent(UserInRoom(roomID, user))), false);
          }
        } else {
          out := RoomEventOutcome([], Some(UserLeftRoomEvent(UserInRoom(roomID, user))), false);
        }
      case UserProfileUpdated(u) =>
        if u.id in channels {
          channels := channels[u.id := channels[u.id].(name := u.name, photo := u.photo)];
        }
        out := RoomEventOutcome([], Some(UserProfileUpdatedEvent(UserByID(u.id))), false);
      case UserRemoved(u) =>
        var user := UserByID(u.id);
        var c := Closing([], false);
        if u.id in channels {
          c := DestroyUserChannel(u.id);
        }
        out := RoomEventOutcome(c.effects, Some(UserRemovedEvent(user)), c.threw);
    }
  }
}
