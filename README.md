# Peer-to-peer chat: client directory and room store

This project models two parts of a browser chat application in Dafny. Peers talk to each other over WebRTC data channels, and a signalling service supplies profiles, rooms and room events. The project proves properties of both parts.

- **The chat client** (`ChatClient.dfy`, modelling `plugins/p2p-chat/client.ts`) covers:
  - the peer directory, a map from user id to a channel record;
  - collecting participants across rooms without duplicates;
  - the directory updates driven by room events;
  - the status a conversation record shows;
  - the fan-out of protocol frames to connected peers, with the two `sendChannelMessage` errors;
  - dispatching incoming frames by type;
  - the ICE-server configuration.

  WebRTC and gRPC calls are not executed. The client returns what it asks of them as `Effect` values: send a frame, start negotiating with a peer, close a data channel.

- **The room store** (`RoomStore.dfy`, modelling `store/room.ts`) covers:
  - the chat screen's state record;
  - its in-place mutations;
  - the projection `mapConversation`;
  - `mapMessageType` and `isImage`.

  Rooms are objects of a `class Room`, because the active room is the same object as its entry in the room list, so a change made through one is seen through the other. Conversations are values in a sequence that the mutations reassign.

The other files:

- `ChatTypes.dfy` holds the record and enum shapes shared by both parts.
- `Seqs.dfy` holds the JavaScript array operations the mutations use (`findIndex`, `indexOf`, push-if-absent, `splice` of one element), with their properties.
- `Wrappers.dfy` holds `Option` and `Result`.

JavaScript semantics are written out where they matter:

- `undefined` is `None`.
- `errorCode` 0 and `errorMessage` "" count as absent.
- `findIndex` returns the first match.
- A mutation that reads `state.activeRoom.id` while there is no active room throws. It returns `ok == false`, and whatever it changed before the throw stays changed.

The status derivation follows the code: the delivery acknowledgement is checked before the read receipt, so a sent message that has both shows RECEIVED, not READ (`AcknowledgementSequence`).

The `loadRooms` action runs on every user-joined event (store/room.ts:525-528) and commits `roomsLoaded` with new room objects (store/room.ts:341). `activeRoom` keeps the object it had. From then on `userTyping` pushes into both the new list entry and the old active room, while `finishTyping` removes only from the list entry, so the old active room keeps the user. The frames of `UserTyping` and `FinishTyping` state exactly which objects each may change.

Nothing in the client ever adds to a channel record's `roomIDs`. Starting from any directory without room membership, a USERLEFTROOM event therefore never removes a peer (`LeftRoomNeverRemoves`, together with the `NoRoomMembership` invariant that every directory operation keeps).

## Model

| member | source | states |
|---|---|---|
| Seqs.FindIndex | store/room.ts:174 | the index is -1 exactly when no element matches; otherwise it is the first match |
| Seqs.IndexOf | store/room.ts:276 | -1 exactly when the value is absent; otherwise its first position |
| Seqs.PushAbsentContents | store/room.ts:261-263 | adding an absent user appends it once; a present one leaves the list as it was |
| Seqs.PushAbsentNoDup | store/room.ts:258-270 | adding only absent users keeps a typing list free of duplicates |
| Seqs.PushAbsentIdempotent | store/room.ts:258-270 | adding the same user twice is adding it once (room entry and active room may be one object) |
| Seqs.RemoveFirstContents | store/room.ts:276-279 | on a duplicate-free list, removal leaves every other user, drops the given one, and shortens the list by one exactly when it was present |
| Seqs.RemoveAfterPush | store/room.ts:258-280 | a typing notice followed by its finish restores the typing list |
| ChatClient.ToRtcIceServer | plugins/p2p-chat/client.ts:109-134 | `urls` is the server url; with a credential type the username is copied; PASSWORD gives 'password' with the password; OAUTH gives 'oauth' with mac key and access token; any other type gives neither |
| ChatClient.ToRtcIceServers | plugins/p2p-chat/client.ts:109-134 | one browser entry per configured server, in order, each being the conversion of its server (url, username and credential as for a single server) |
| ChatClient.IceCredentialRoundTrip | plugins/p2p-chat/client.ts:114-131 | a password or OAuth credential type can be read back from the browser entry, and the username is kept |
| ChatClient.StatusOf | plugins/p2p-chat/client.ts:313-331 | each of FAILED, SENT, RECEIVED, READ holds exactly under its condition: an error on a sent record; no acknowledgement; receivedBy before readBy; `read` for a received record |
| ChatClient.ReceivedRecordStatus | plugins/p2p-chat/client.ts:325-331 | a received record is only RECEIVED or READ |
| ChatClient.AcknowledgementSequence | plugins/p2p-chat/client.ts:314-324 | for any error-free sent record and any non-empty acknowledgement lists: no acknowledgement shows SENT, a delivery acknowledgement shows RECEIVED and still does once a read receipt arrives too, a read receipt alone shows READ |
| ChatClient.ErrorOverridesAcknowledgements | plugins/p2p-chat/client.ts:314-316 | a non-zero error code on a sent record gives FAILED whatever the acknowledgements |
| ChatClient.Dispatch | plugins/p2p-chat/client.ts:673-697 | an incoming frame type is ignored exactly when it is none of the four protocol names |
| ChatClient.WireNamesDistinct | plugins/p2p-chat/client.ts:673-697 | the four frame types have distinct names, and each name reaches the stream of its own type |
| ChatClient.NewMessagePayloadAsWritten | plugins/p2p-chat/client.ts:370-378 | the sent new-message payload has no room id |
| ChatClient.NewMessagePayloadFor | plugins/p2p-chat/client.ts:370-378 | the payload carries the room id and the stored conversation's id |
| ChatClient.PayloadCorrectionOnlyAddsRoom | plugins/p2p-chat/client.ts:370-378 | the corrected payload differs from the one as written only by the room id |
| ChatClient.IncomingRoomLostAsWritten | plugins/p2p-chat/client.ts:510-517 | as written, the receiving peer hands an undefined room to its conversation manager |
| ChatClient.ReceivePayloadOf | plugins/p2p-chat/client.ts:510-517 | the sender is the peer the frame came from; id, room, content, type and time are the payload's |
| ChatClient.IncomingRoundTrip | plugins/p2p-chat/client.ts:510-517 | with the room in the payload, the receiver records the sender's id, room, content, type and time as the frame carries them, and the sending peer as sender (the JSON encoding of the frame is not modelled; see Left out) |
| ChatClient.ClosingOf | plugins/p2p-chat/client.ts:700-709 | nothing happens for a missing or unconnected peer; a connected peer gets its send channel and then its receive channel closed, the calls stopping at the first missing channel, and the call throws exactly when a channel it closes is missing |
| ChatClient.DirectoryAfter | plugins/p2p-chat/client.ts:774-832 | only the event's peer can change. JOINED creates `{name=id, photo=''}` only when absent. LEFT deletes only a peer whose sole room is this one. PROFILEUPDATED changes only name and photo of an existing peer. REMOVED deletes an existing peer unless closing throws. Room events change nothing |
| ChatClient.Destroy | plugins/p2p-chat/client.ts:539-542 | the peer's entry is deleted unless closing its channels throws, in which case the directory is unchanged; no other entry changes |
| ChatClient.DirectoryAfterKeepsInvariants | plugins/p2p-chat/client.ts:774-832 | room events keep every entry under its own id and add no room membership |
| ChatClient.LeftRoomNeverRemoves | plugins/p2p-chat/client.ts:793-803 | with no recorded room membership, USERLEFTROOM leaves the directory unchanged |
| ChatClient.DistinctIds | plugins/p2p-chat/client.ts:182-194 | the collected users have distinct ids, all ids of the rooms' members, and only members |
| ChatClient.Distinct | plugins/p2p-chat/client.ts:186-193 | the collected list is no longer than the members and holds only members |
| ChatClient.DistinctIsFirstOccurrences | plugins/p2p-chat/client.ts:182-194 | the collected list is exactly the first user of each id, in order of first appearance |
| ChatClient.DistinctSnoc | plugins/p2p-chat/client.ts:189-192 | a user is appended exactly when its id has not been collected |
| ChatClient.MembersSnoc | plugins/p2p-chat/client.ts:186-187 | rooms are visited in order, each room's users in order |
| ChatClient.CollectRoom | plugins/p2p-chat/client.ts:187-193 | the inner loop extends the collected list by the room's users, keeping the id list in step |
| ChatClient.CollectParticipants | plugins/p2p-chat/client.ts:182-194 | the loops produce the duplicate-free first-occurrence list and its ids |
| ChatClient.RegisterAllEntries | plugins/p2p-chat/client.ts:196-199 | every collected user gets a fresh entry; entries of other ids are untouched |
| ChatClient.RegisterAll | plugins/p2p-chat/client.ts:196-199 | every existing entry and every collected user has an entry afterwards, and the last user registered gets a fresh one |
| ChatClient.RegisterAllKeepsInvariants | plugins/p2p-chat/client.ts:196-199 | creating entries keeps the directory invariant and adds no room membership |
| ChatClient.ConnectAll | plugins/p2p-chat/client.ts:204-209 | one negotiation per collected id, in order |
| ChatClient.Client.constructor | plugins/p2p-chat/client.ts:44-48 | an empty directory, no rooms, no ICE servers |
| ChatClient.Client.UserByID | plugins/p2p-chat/client.ts:212-229 | an unknown id gives `{id, name=id, photo=null, online=false}`; a known one copies name and photo and is online exactly when connected |
| ChatClient.Client.ParticipantOnline | plugins/p2p-chat/client.ts:264-268 | a participant is online exactly when its entry exists and is connected |
| ChatClient.Client.OnlineViewsAgree | plugins/p2p-chat/client.ts:264-268 | the room list and the user lookup agree on who is online |
| ChatClient.Client.MapConversationFromStateAsWritten | plugins/p2p-chat/client.ts:294-343 | as written, the conversation has no `isReceiver` and no `roomID` |
| ChatClient.Client.MapConversationFromState | plugins/p2p-chat/client.ts:294-343 | id, time, message and derived status of the record, the sender as `getUserbyID` gives it (directory name and photo, or the `{name=id, photo=null}` fallback), plus `isReceiver` and `roomID` |
| ChatClient.Client.MappingCorrectionOnlyAddsFields | plugins/p2p-chat/client.ts:333-342 | the corrected mapping differs from the one as written only by `isReceiver` and `roomID` |
| ChatClient.Client.SendChannelMessage | plugins/p2p-chat/client.ts:711-720 | a frame goes out exactly when the entry exists, has a send channel and is connected; otherwise "channel not exists" for a missing entry and "user <id> offline" for the rest |
| ChatClient.Client.DisconnectToChannel | plugins/p2p-chat/client.ts:700-709 | nothing for a missing or unconnected peer; a connected peer gets both channels closed, send first, stopping at the first missing one; throws exactly when a connected peer lacks a data channel |
| ChatClient.Client.FanOut | plugins/p2p-chat/client.ts:364-380 | the frames sent are exactly one per deliverable participant before the first stuck one, in list order; it fails exactly when some participant is connected without a send channel, with the "offline" error of the first such participant; with no failure every deliverable participant gets the frame |
| ChatClient.Client.FanOutReachesExactly | plugins/p2p-chat/client.ts:364-380 | without such a participant, a peer gets the frame if and only if it is a deliverable participant |
| ChatClient.Client.RoomParticipants | plugins/p2p-chat/client.ts:347-353 | "room not found!" exactly when no cached room has the id; otherwise the ids of the first cached room with that id, as `find` returns it |
| ChatClient.Client.FanOutThen | plugins/p2p-chat/client.ts:364-382 | the fan-out's frames, then its error or the value returned |
| ChatClient.Client.SendMessage | plugins/p2p-chat/client.ts:345-383 | unknown room: "room not found!" and nothing stored or sent; otherwise the request stored under the new id and profile, frames carrying the stored id, then the mapped conversation |
| ChatClient.Client.ReadMessage | plugins/p2p-chat/client.ts:385-418 | unknown room: "room not found!"; otherwise read receipts `{id, readBy=profile}` to the participants, then the stored record mapped |
| ChatClient.Client.TypingNotice | plugins/p2p-chat/client.ts:420-445 | unknown room: "room not found!"; otherwise `{roomID, userID=profile}` to the participants |
| ChatClient.Client.CreateUserChannel | plugins/p2p-chat/client.ts:455-457 | a fresh entry for the user replaces any earlier one |
| ChatClient.Client.DestroyUserChannel | plugins/p2p-chat/client.ts:539-542 | the channels are closed, then the entry is deleted unless closing threw |
| ChatClient.Client.MakeChannels | plugins/p2p-chat/client.ts:182-210 | one fresh entry per collected participant, and a negotiation per collected id |
| ChatClient.Client.Connect | plugins/p2p-chat/client.ts:108-147 | the ICE configuration and the cached rooms are set, then the channels are made |
| ChatClient.Client.SendChannelCreated | plugins/p2p-chat/client.ts:611-621 | an existing entry gets its send channel; a missing one is "channel not exists" |
| ChatClient.Client.ChannelOpened | plugins/p2p-chat/client.ts:663-666 | the peer becomes connected; nothing else changes |
| ChatClient.Client.ChannelClosed | plugins/p2p-chat/client.ts:667-670 | the peer becomes disconnected; nothing else changes |
| ChatClient.Client.ReceiveChannelAttached | plugins/p2p-chat/client.ts:637-641 | the peer's receive channel is attached |
| ChatClient.Client.HandleRoomEvent | plugins/p2p-chat/client.ts:736-832 | the directory becomes `DirectoryAfter`. Room events are forwarded with no participants; USERREGISTERED is ignored. JOINED negotiates only with a new peer. LEFT forwards the user as it was before, unless closing threw. REMOVED forwards the user before deleting it |
| RoomStore.Room.constructor | store/room.ts:11-18 | a room with its profile, preview, and nobody typing |
| RoomStore.WithFlag | store/room.ts:202-225 | exactly the named flag becomes true |
| RoomStore.SetFlag | store/room.ts:202-225 | the length is kept; only the first conversation with the id gets the flag; all others are unchanged |
| RoomStore.ReplaceFirst | store/room.ts:193-201 | the length is kept; only the first conversation with the temporary id is replaced |
| RoomStore.ChunkProgress | store/room.ts:237-248 | only the first conversation carrying the file gets the progress, and not once it is at 1 |
| RoomStore.CompleteFile | store/room.ts:249-257 | only the first conversation carrying the file gets the bytes and progress 1 |
| RoomStore.SetFlagOnlyTarget | store/room.ts:202-225 | with distinct ids, exactly the conversation with the id changes, and its ids are kept |
| RoomStore.SetFlagIdempotent | store/room.ts:202-225 | a repeated read, receipt or failure notice changes nothing more |
| RoomStore.ReplaceRetiresTempId | store/room.ts:193-201 | once the committed conversation is in, the temporary id is gone |
| RoomStore.ChunkAfterCompleteIgnored | store/room.ts:237-257 | a chunk arriving after the transfer completed changes nothing |
| RoomStore.CompletedFileStaysComplete | store/room.ts:242-244 | progress reports never touch a completed file |
| RoomStore.Preview | store/room.ts:176-183 | files and images preview their name; everything else previews its text; no preview otherwise |
| RoomStore.Optimistic | store/room.ts:166-173 | the optimistic conversation is not received, has the sent id, time, type and message, and no flags |
| RoomStore.MapMessageType | store/room.ts:570-574 | MESSAGE to TEXT, FILE to FILE, IMAGE to IMAGE |
| RoomStore.MapMessageTypeBijective | store/room.ts:570-574 | the type mapping is a bijection |
| RoomStore.FileInfoOf | store/room.ts:544-553 | the file fields are copied, and bytes become a Blob of the file's type exactly when present |
| RoomStore.MapConversation | store/room.ts:537-568 | id, time, sender name, `receive` = `isReceiver`, mapped type, and the file or text body; each of failed, read, received is true exactly under its own status; file content missing from a file message is an error |
| RoomStore.PreviewOfMapped | store/room.ts:226-236 | a received conversation previews as its file name for files and images, otherwise as its text |
| RoomStore.MappedFlagsExclusive | store/room.ts:564-566 | a mapped conversation has exactly one true flag, none when SENT |
| RoomStore.IsImageMeansContains | store/room.ts:576-578 | `isImage` holds exactly when "image" occurs in the type |
| RoomStore.IsImage | store/room.ts:576-578 | a type shorter than "image" never matches, and one starting with "image" always does (the full equivalence is `IsImageMeansContains`) |
| RoomStore.RoomState.constructor | store/room.ts:99-110 | the initial state: nothing loading, no profile, error or active room, no rooms or conversations |
| RoomStore.RoomState.ActiveIndex | store/room.ts:174 | the room-list index of the active room's id, -1 without an active room |
| RoomStore.RoomState.LoadProfile | store/room.ts:113-116 | the error is cleared and the profile is loading |
| RoomStore.RoomState.ProfileLoaded | store/room.ts:117-120 | the profile is set and no longer loading |
| RoomStore.RoomState.ErrorLoadProfile | store/room.ts:121-124 | the error is set and the profile is no longer loading |
| RoomStore.RoomState.LoadRooms | store/room.ts:125-128 | the error is cleared and the rooms are loading |
| RoomStore.RoomState.RoomsLoaded | store/room.ts:129-132 | the room list is replaced and no longer loading |
| RoomStore.RoomState.ErrorLoadRoom | store/room.ts:133-136 | the error is set and the rooms are no longer loading |
| RoomStore.RoomState.SetActiveRoom | store/room.ts:137-143 | the conversations are always emptied; the active room changes only to a listed room with the id |
| RoomStore.RoomState.LoadConversations | store/room.ts:144-148 | the error and the conversations are cleared, loading starts |
| RoomStore.RoomState.ConversationLoaded | store/room.ts:149-152 | the conversations are replaced, loading ends |
| RoomStore.RoomState.LoadNextConversations | store/room.ts:153-156 | the error is cleared, loading starts, the conversations stay |
| RoomStore.RoomState.NextConversationLoaded | store/room.ts:157-160 | the older page goes in front of the shown conversations, loading ends |
| RoomStore.RoomState.ErrorLoadConversation | store/room.ts:161-164 | the error is set, loading ends |
| RoomStore.RoomState.UpdatePreview | store/room.ts:174-184 | only the listed room with the active room's id gets the preview; throws without an active room |
| RoomStore.RoomState.SendingMessage | store/room.ts:165-185 | exactly one optimistic conversation is appended (even when the active-room read then throws); the active room's entry previews it |
| RoomStore.RoomState.ReceiveMessage | store/room.ts:226-236 | exactly the incoming conversation is appended; the active room's entry previews it |
| RoomStore.RoomState.RaiseFlag | store/room.ts:202-225 | the conversations become `SetFlag` of the old ones |
| RoomStore.RoomState.SendingMessageFailed | store/room.ts:186-192 | the optimistic conversation is marked failed, nothing else changes |
| RoomStore.RoomState.MessageSent | store/room.ts:193-201 | the committed conversation replaces the optimistic one in place |
| RoomStore.RoomState.MessageRead | store/room.ts:202-209 | the conversation with the id is marked read |
| RoomStore.RoomState.MessageReceived | store/room.ts:210-217 | the conversation with the id is marked received |
| RoomStore.RoomState.ReadMessage | store/room.ts:218-225 | the conversation with the id is marked read |
| RoomStore.RoomState.ReceiveFileChunk | store/room.ts:237-248 | the conversations become `ChunkProgress` of the old ones |
| RoomStore.RoomState.FileTransferComplete | store/room.ts:249-257 | the conversations become `CompleteFile` of the old ones |
| RoomStore.RoomState.UserTyping | store/room.ts:258-270 | the user is added once to the listed room with the id and to the active room with the id; no other typing list changes; reachable typing lists stay duplicate-free; throws without an active room after the list update |
| RoomStore.RoomState.FinishTyping | store/room.ts:271-280 | the user is removed from the listed room with the id only; unknown room or absent user changes nothing; typing lists stay duplicate-free |
| RoomStore.ReceiveLostAsWritten | store/room.ts:557-567 | as written, a conversation from the client reaches the store with `receive` undefined |
| RoomStore.StoreSeesClientStatus | store/room.ts:557-567 | with the complete client mapping, `receive` is the record's `isReceiver`, and failed and read match the derived status |

## Left out

- `ChatClient.IncomingRoundTrip`: frames cross the data channel as JSON (`JSON.stringify` at client.ts:719, `JSON.parse` at client.ts:674), which the model does not encode. There, file bytes (an `ArrayBuffer`) arrive as `{}` and the `Date` time stamp arrives as a string; the lemma states the round trip as if the payload values arrived unchanged, which holds only for text content.
- `ChatClient.Client.HandleRoomEvent`: on USERJOINEDROOM the source's `connectToChannel` runs synchronously up to its first `await` (client.ts:644), so the new entry has its send channel (client.ts:619-621) before the handler returns. In the model a `Negotiate` effect includes that directory write, which the caller performs with `SendChannelCreated`; until then the entry has no send channel. The difference is invisible while the entry is not connected.
- `ChatClient.Client.SendMessage`: the frames carry `NewMessagePayloadFor`, with the room id, not the payload as written at client.ts:372-377 (first finding); the code as written sends `NewMessagePayloadAsWritten`, which differs only in that field (`PayloadCorrectionOnlyAddsRoom`). The returned conversation is the corrected `MapConversationFromState` (second finding).
- `ChatClient.Client.ReadMessage`: the returned conversation is the corrected `MapConversationFromState`, with `isReceiver` and `roomID`; the code as written builds `MapConversationFromStateAsWritten`, which differs only in those two fields (`MappingCorrectionOnlyAddsFields`).
- `ChatClient.NewChannel`: a fresh channel object has no `connected` value (user-channel.ts:10 declares it without an initialiser), so `getUserbyID` and `getRooms` report `online: undefined` for it. The model renders that `undefined` as `false`.
- WebRTC negotiation, ICE candidates, SDP signalling and the data channels' transport are only requested as effects. They are foreign and asynchronous.
- gRPC calls, token storage and the profile and room fetches are parameters. The `profile` id, set at the end of `connect`, is a constructor parameter of `Client`.
- The RxJS streams of `createUserChannel` are not modelled. Only the directory entry it writes is.
- `disconnect()` is not modelled. It walks `Object.keys` of the directory, and a throw from one peer stops the rest, so its result depends on key order.
- `ChatClient.Client.Connect`: the client's `rooms` before the first `connect` is `undefined`. The model starts from an empty list, so a send before connecting is "room not found!" rather than a TypeError.
- `ChatClient.Client.ChannelOpened` and the other channel callbacks model only their directory writes. The subject notifications are not modelled.
- `RoomStore.MapConversation`: content of another kind than the message type declares is an error in the model. Examples are a string on a FILE message, or a file description or raw bytes on a MESSAGE. JavaScript would store whatever it finds.
- `RoomStore.Preview`: a file body on a text-typed message would become the preview object itself. The model gives no preview.
- The Vuex actions, subscriptions, FileReader and setTimeout are not modelled. They are asynchronous wiring around the mutations.
- `joinRoom`, `leftRoom` and `roomProfileUpdated` (store/room.ts:281-300) are left out. Their guards are inverted: the room is added only when already present, `splice(-1, 1)` runs when it is absent, and `rooms[-1]` is written to.
- Object aliasing of conversations and file descriptions is not modelled. Each belongs to one entry of the list, which is how the shown code creates them.
- Time stamps are integers and `downloaded` is a real number. Date and floating-point behaviour is not modelled.

## Findings

| source | as written | input that shows it | evidently intended | confidence | as-written member | corrected member |
|---|---|---|---|---|---|---|
| plugins/p2p-chat/client.ts:370-378 | the `MessageNew` payload is built without `roomID`, though its interface declares one and the receiver passes `payload.roomID` on (client.ts:510-512) | any `sendMessage` to a room with a connected peer | the payload carries the room the message was sent to | not executed | ChatClient.NewMessagePayloadAsWritten, ChatClient.IncomingRoomLostAsWritten | ChatClient.NewMessagePayloadFor, ChatClient.IncomingRoundTrip |
| plugins/p2p-chat/client.ts:333-342 | `mapConversationFromState` returns no `isReceiver` and no `roomID`, though the conversation interface declares both and the store reads `isReceiver` (store/room.ts:562) | any stored record, e.g. a received message: the store's `receive` is undefined | the conversation carries the record's `isReceiver` and `roomID` | not executed | ChatClient.Client.MapConversationFromStateAsWritten, RoomStore.ReceiveLostAsWritten | ChatClient.Client.MapConversationFromState, RoomStore.StoreSeesClientStatus |
