# freecord core, modelled in Dafny

freecord is a Discord-style chat application built as a Next.js app with a custom
socket.io server. This project models its core and proves properties of the model.

- **Realtime server** (`server.js`): a dispatcher over connections. Each connection
  has the `socket.data` record that the handlers write. A room table holds the
  `voice-channel:<id>` and `chat:<id>` rooms. Every handler is a method that updates
  the dispatcher and returns its outbox, one emission per receiving connection, in
  room order.
- **Socket bridge** (`src/lib/socket-emit.ts`): the three 'emit to a chat room'
  helpers that API routes call on the global socket.io handle.
- **Chat cache** (`src/hooks/use-chat-socket.ts`): the paged message cache of one chat
  and the three updaters that the `message-received`, `message-changed` and
  `message-removed` events run on it.
- **API routes** over an abstract store (`Store.Database`, which holds tables of
  rows):
  - posting a chat message (it stores, then emits);
  - friend requests and the friend list;
  - the voice-participant sweep;
  - joining a server by invite code;
  - creating a channel;
  - starting a direct message;
  - the public-server listing;
  - the find-or-create of a user's profile.

  Each route is a function from the tables to the tables afterwards plus the
  response (a `Step`), and a method that does the same one store call at a time.
  The method is proved equal to the function.
- **Client logic:**
  - the audio settings provider and the microphone/headphones controls;
  - the participant volume dialog and the voice user list's volume indicator;
  - the chat item's file-type and permission flags;
  - the reaction bar;
  - the channel member sidebar;
  - the server settings, server discovery, create-channel, edit-channel and user
    settings dialogs;
  - the modal store;
  - the sidebar badge.

  Component state that the source changes in place is a `class` whose methods
  say what the new state is. The pure rules it follows are functions with their
  own contracts and lemmas.

Modules: `Wrappers` (Option, fetch outcomes, form values), `Seqs` (filter, find,
subsequence, sort order), `Text` (the JavaScript string operations the source uses:
split, join, trim, ASCII lower-casing, integer printing and parsing), `Messages`,
`Store`, and one module per source file. `MessageFlow` and `RealtimeScenarios` are
end-to-end scenarios whose contracts pin down concrete outboxes.

Request bodies that fail to parse are `None` and give the route's 500. Store
exceptions are a `failing` flag on the database: the first call throws, nothing is
written, and the route answers 500. The ids and timestamps a store assigns, and the
current time, are parameters.

An observation about `src/app/api/direct-messages/route.ts:38`: the conversation id
`dm-<me>-<target>` depends on who starts the conversation, and two different pairs
can share an id. `DirectMessages.ConversationIdNotSymmetric` exhibits this: ("x",
"x-x") and ("x-x", "x") both give `dm-x-x-x`. Nothing in the source relies on the id
being unique, so this is recorded here rather than as a finding.

Some behaviours of the code a reader may not expect:

- A second `voice-channel-join` from a connection already in another voice room
  does not leave the first room. The connection's `currentVoiceChannel` is
  overwritten, but it is still listed by `voice-channel-get-participants` for the
  old room (`RealtimeScenarios.SecondJoinKeepsFirstRoom`).
- `voice-channel-leave` clears `currentVoiceChannel` whatever channel id it is
  given.
- The `chat-item` permissions hard-code admin and moderator to `false`. Only
  ownership counts.
- The edit-channel dialog's `onSubmit` and `onDelete` never look at the response
  status. Only a thrown request keeps the dialog open.
- `getCurrentUserRole` in the server settings dialog does not look at the signed-in
  user. It is ADMIN exactly when some member is an admin.

## Model

| member | source | states |
|---|---|---|
| Realtime.VoiceAndChatRoomsDiffer | server.js:62-65 | a voice room name never equals a chat room name, so the two kinds of traffic never share a room |
| Realtime.VoiceRoomNames | server.js:62 | two channel ids name the same voice room exactly when they render alike in a template literal |
| Realtime.ChatRoomNames | server.js:143 | two chat ids name the same chat room exactly when they render alike |
| Realtime.MissingIdSharesRoom | server.js:62 | a missing channel id renders as "undefined" and shares its room with the literal id "undefined" |
| Realtime.Recipients | server.js:65 | the receivers of an outbox, one per emission, in order |
| Realtime.Broadcast | server.js:65 | `io.in(room).emit`: exactly the room's members receive, in room order, each the same event |
| Realtime.BroadcastSmall | server.js:65 | proof helper: a broadcast to one or two members, written out |
| Realtime.BroadcastExcept | server.js:172 | `socket.to(room).emit`: every room member except the sender receives, in room order, and the sender never does |
| Realtime.RoomAdd | server.js:62 | joining adds the connection once, keeps earlier members in order and keeps the room free of duplicates |
| Realtime.RoomRemove | server.js:92 | leaving removes exactly that connection, keeps the rest in order and keeps the room free of duplicates |
| Realtime.LeaveAll | server.js:211-231 | on close the connection is in no room, every other membership survives, and no room is created |
| Realtime.JoinKeepsWellFormed | server.js:62 | joining a room keeps the table well formed: no empty room, no duplicate, only live connections |
| Realtime.LeaveKeepsWellFormed | server.js:92 | leaving a room keeps the table well formed |
| Realtime.CloseKeepsWellFormed | server.js:211-231 | removing a closed connection from every room keeps the table well formed for the remaining connections |
| Realtime.RosterContents | server.js:104-119 | the participant list is no longer than the room, has every member with a truthy `userId` and only such members, and shows a missing avatar as `undefined` |
| Realtime.RosterOfAnonymous | server.js:110-119 | a room whose members never set `userId` lists nobody |
| Realtime.Dispatcher.constructor | server.js:45 | no connections and no rooms at start |
| Realtime.Dispatcher.Connect | server.js:45-46 | a new connection starts with empty `socket.data` and changes no room |
| Realtime.Dispatcher.VoiceJoin | server.js:49-76 | writes the four `socket.data` fields, joins the voice room and emits `voice-channel-user-joined` to every room member, the joiner included; a null payload throws, is caught, and changes nothing |
| Realtime.Dispatcher.VoiceLeave | server.js:79-101 | emits `voice-channel-user-left` to the room as it was before the leave, so the leaver receives it too, then removes the connection and clears `currentVoiceChannel` |
| Realtime.Dispatcher.GetParticipants | server.js:104-126 | answers only the asker with the room's roster; an unknown room gives an empty list; a null payload throws from the parameter list, outside the try |
| Realtime.Dispatcher.Heartbeat | server.js:129-132 | emits nothing |
| Realtime.Dispatcher.ChatJoin | server.js:137-149 | overwrites `userId` and joins `chat:<chatId>` |
| Realtime.Dispatcher.ChatLeave | server.js:152-163 | leaves `chat:<chatId>` and keeps `socket.data` |
| Realtime.Dispatcher.MessageSent | server.js:166-178 | relays `message-received` to every chat room member except the sender, who need not be a member |
| Realtime.Dispatcher.MessageUpdated | server.js:181-193 | relays `message-changed` to every chat room member except the sender |
| Realtime.Dispatcher.MessageDeleted | server.js:196-208 | relays `message-removed` to every chat room member except the sender |
| Realtime.Dispatcher.Disconnect | server.js:211-231 | emits `voice-channel-user-left` to the remaining members of the voice room exactly when both `userId` and `currentVoiceChannel` are truthy; drops the connection and all its memberships |
| RealtimeScenarios.ThreeConnected | server.js:45 | three connections, no rooms |
| RealtimeScenarios.AnnAndBobListed | server.js:104-122 | proof helper: the roster of A and B with their recorded fields |
| RealtimeScenarios.AnnJoinsVoice | server.js:49-70 | a first voice join puts only that socket in the room and its event reaches only that socket |
| RealtimeScenarios.TwoJoinVoice | server.js:49-70 | after two voice joins the second join's event reaches both members |
| RealtimeScenarios.VoiceRoster | server.js:104-122 | the roster lists both members in join order, with the missing avatar as `undefined` |
| RealtimeScenarios.VoiceLeaveThenClose | server.js:86-95 | an explicit leave reaches both members; closing afterwards emits nothing (also lines 211-226) |
| RealtimeScenarios.VoiceClose | server.js:211-226 | closing without a leave tells the remaining member |
| RealtimeScenarios.ThirdJoinsOtherRoom | server.js:49-62 | a join to another channel opens a separate room |
| RealtimeScenarios.SwitchWithoutLeave | server.js:56-62 | joining a second channel keeps the first room's membership |
| RealtimeScenarios.SecondJoinKeepsFirstRoom | server.js:56-62 | the old room still lists the switched connection, and its close is announced only in the new room (also lines 104-119 and 211-226) |
| RealtimeScenarios.TwoJoinChat | server.js:137-149 | two chat joins fill the room in order |
| RealtimeScenarios.ChatRelay | server.js:152-178 | a message reaches the other member, and nobody after that member leaves |
| SocketEmit.EmitNewMessage | src/lib/socket-emit.ts:14-22 | with a handle, `message-received` goes to every member of `chat:<chatId>`, the sender not excluded; without one, nothing; an unknown room gives nothing |
| SocketEmit.EmitMessageUpdate | src/lib/socket-emit.ts:24-32 | with a handle, `message-changed` goes to every chat room member; without one, nothing |
| SocketEmit.EmitMessageDelete | src/lib/socket-emit.ts:34-42 | with a handle, `message-removed` goes to every chat room member; without one, nothing |
| SocketEmit.BridgeAndRelayDiffer | src/lib/socket-emit.ts:17 | the bridge reaches exactly the relay's receivers plus the sender when the sender is a member |
| ChatCache.FirstPageWith | src/hooks/use-chat-socket.ts:65-79 | the index of the first page holding the id, or none exactly when no page holds it |
| ChatCache.ReplaceAll | src/hooks/use-chat-socket.ts:73-75 | every item with the id is replaced and every other item kept, length preserved |
| ChatCache.RemoveAll | src/hooks/use-chat-socket.ts:107 | removes every item with the id and keeps every other item, as often as it occurred, in order |
| ChatCache.NewMessage | src/hooks/use-chat-socket.ts:34-51 | an absent or empty cache is returned as is; otherwise the message is prepended to page 0 and the other pages and page params are kept |
| ChatCache.NewMessageDuplicates | src/hooks/use-chat-socket.ts:44 | there is no de-duplication: a message already on page 0 appears there twice |
| ChatCache.MessageUpdate | src/hooks/use-chat-socket.ts:57-85 | the index loop computes `Updated`, the function the update lemmas are about |
| ChatCache.FirstPageWithIs | src/hooks/use-chat-socket.ts:65-79 | the first page holding the id is the one the loop stops at |
| ChatCache.UpdateShape | src/hooks/use-chat-socket.ts:62-84 | an update keeps page count, page lengths, cursors and params, changes only the first page with the id, and there replaces exactly the items with that id |
| ChatCache.UpdateAbsent | src/hooks/use-chat-socket.ts:64-79 | an update for an id no page holds leaves the cache unchanged |
| ChatCache.UpdateIdempotent | src/hooks/use-chat-socket.ts:57-85 | applying the same update twice is the same as once |
| ChatCache.MessageDelete | src/hooks/use-chat-socket.ts:91-117 | the index loop computes `Deleted`, the function the delete lemmas are about |
| ChatCache.DeleteShape | src/hooks/use-chat-socket.ts:96-116 | a delete keeps the page count and params, changes only the first page with the id, and there removes exactly the items with that id, keeping each other item as often as it occurred |
| ChatCache.DeleteAbsent | src/hooks/use-chat-socket.ts:98-110 | a delete for an id no page holds leaves the cache unchanged |
| ChatCache.DeleteMovesOn | src/hooks/use-chat-socket.ts:98-110 | later pages keep their copies: after a delete the id can only be found on a later page |
| ChatCache.NewThenDelete | src/hooks/use-chat-socket.ts:39-51 | deleting a new message's id right after it arrives restores the cache (also lines 98-110) |
| ChatCache.PageCountKept | src/hooks/use-chat-socket.ts:39 | no event changes the number of pages (also lines 62 and 96) |
| MessageRoute.Rejection | src/app/api/socket/messages/route.ts:7-64 | the error response, if any, in check order: 500 for a bad body, 401, "Server ID missing", "Channel ID missing", "Content missing", 500 for a failing store once the input is well formed, "Server not found", then "Channel not found"; none exactly when the post is accepted |
| MessageRoute.Post | src/app/api/socket/messages/route.ts:6-86 | a rejected post writes nothing and emits nothing; an accepted one stores exactly one message with the caller and channel, emits it once to the channel's chat room and returns it |
| MessageFlow.Subscribed | server.js:137-149 | a connection that joined chat "c1" is its room's only member |
| MessageFlow.PostReachesSubscriber | src/app/api/socket/messages/route.ts:66-81 | a member's post is stored and reaches the subscribed connection (also lines 14-18 of `socket-emit.ts`) |
| MessageFlow.OutsiderIsRefused | src/app/api/socket/messages/route.ts:31-47 | a non-member's post gets 404, stores nothing and emits nothing |
| FriendRequests.TargetOf | src/app/api/friends/requests/route.ts:10-13 | exactly a non-empty JSON string passes as `toUserId` |
| FriendRequests.SortedPair | src/app/api/friends/requests/route.ts:41 | the same two ids, the smaller first |
| FriendRequests.SetStatusById | src/app/api/friends/requests/route.ts:43-46 | only rows with that id get the new status |
| FriendRequests.SetStatusByPair | src/app/api/friends/requests/route.ts:59-61 | only rows with that `(from, to)` key get the new status |
| FriendRequests.Send | src/app/api/friends/requests/route.ts:5-70 | the POST ladder: no writes on an error, `already_friends` or `pending`; the identity tables are never touched; a 200 needs a caller, a body and a target that is not the caller |
| FriendRequests.SendRungs | src/app/api/friends/requests/route.ts:5-70 | one implication per rung, in route order: 401 without a caller, 500 for an unreadable body, "toUserId is required", "Cannot friend yourself", 500 for a failing store, `already_friends` with no writes, then for the target's earliest pending request to the caller the sorted friendship appended and that row ACCEPTED (`auto_accepted`), then for the caller's own row to the target `pending` with no writes if it is pending or that row reset to PENDING and returned, and otherwise a new pending row appended and returned |
| FriendRequests.AutoAcceptBefriends | src/app/api/friends/requests/route.ts:32-48 | on any tables, an `auto_accepted` answer leaves the two users friends both ways and the target's pending request to the caller ACCEPTED in place, with no row added |
| FriendRequests.Post | src/app/api/friends/requests/route.ts:5-70 | one store call at a time, the same tables and response as `Send`, so every rung of `SendRungs` holds of the handler |
| FriendRequests.SentRowIsPending | src/app/api/friends/requests/route.ts:59-65 | a returned row is afterwards in the table as a pending request from the caller to the target |
| FriendRequests.PendingAnswer | src/app/api/friends/requests/route.ts:50-56 | with no friendship, no pending request the other way, and only pending rows from the caller to the target (at least one), the answer is `pending` and nothing is written |
| FriendRequests.FriendsAnswer | src/app/api/friends/requests/route.ts:19-29 | between friends any request answers `already_friends` and writes nothing |
| FriendRequests.SecondSendPending | src/app/api/friends/requests/route.ts:51-56 | sending the same request again answers `pending` and writes nothing |
| FriendRequests.FreshSendCreates | src/app/api/friends/requests/route.ts:59-65 | between strangers with no row either way, a send creates one pending row and returns it |
| FriendRequests.AnswerAccepts | src/app/api/friends/requests/route.ts:32-48 | the target's own send accepts the pending row and records the friendship with the sorted pair |
| FriendRequests.CrossRequestsBefriend | src/app/api/friends/requests/route.ts:19-65 | two users who request each other end as friends, no pending request is left between them, and a further request either way answers `already_friends` |
| FriendRequests.SendKeepsUniquePairs | src/app/api/friends/requests/route.ts:51-63 | the `(fromUserId, toUserId)` key stays unique |
| FriendRequests.ListPending | src/app/api/friends/requests/route.ts:72-93 | exactly the pending requests to and from the caller, each a permutation of the matching rows and newest first |
| Friends.Ids | src/app/api/friends/route.ts:16 | proof helper: the ids of a list of user rows, in order |
| Friends.Ends | src/app/api/friends/route.ts:12-16 | for each friendship, in order, a stored user row whose id is the end that is not the caller (the included `userA` or `userB`) |
| Friends.List | src/app/api/friends/route.ts:5-22 | 401 without a caller, 500 on a store error; otherwise one stored user row per friendship involving the caller, in `createdAt` descending order, whose ids are exactly the other ends of those friendships |
| Friends.LinkedEnds | src/app/api/friends/route.ts:12 | proof helper: the included relation of each of the caller's friendships names a stored user |
| Friends.EndIds | src/app/api/friends/route.ts:16 | proof helper: the answered ids are exactly the other ends |
| Friends.SameElements | src/app/api/friends/route.ts:13 | reordering friendships keeps the same set of friendships |
| Friends.FriendsAreOthers | src/app/api/friends/route.ts:10-16 | without self-friendships the caller's id is never listed, and every friend's is |
| VoiceCleanup.Sweep | src/app/api/voice-channels/cleanup/route.ts:4-27 | removes exactly the rows seen strictly before `now - 30000`, keeps the rest in order and with their multiplicity, reports how many were removed, and answers 500 with no writes on a store error |
| VoiceCleanup.Post | src/app/api/voice-channels/cleanup/route.ts:4-27 | the handler's store calls produce `Sweep` |
| VoiceCleanup.RemovedAreStale | src/app/api/voice-channels/cleanup/route.ts:9-22 | `removedCount` is the number of stale rows |
| VoiceCleanup.SweepIdempotent | src/app/api/voice-channels/cleanup/route.ts:9-15 | a second sweep at the same time removes nothing |
| ServerJoin.Join | src/app/api/servers/join/route.ts:5-63 | 500, 401, then 400 for a missing code; 404 exactly when no server has the code; a known member gets the server with their memberships included (lines 23-29, 38) and no writes; otherwise exactly one GUEST membership is added and the bare server row is answered |
| ServerJoin.Post | src/app/api/servers/join/route.ts:5-63 | the handler's store calls produce `Join`, answer included |
| ServerJoin.JoinTwice | src/app/api/servers/join/route.ts:19-56 | joining again writes nothing and answers the same server row with the caller's membership included, and the user ends with exactly one membership |
| ChannelRoute.Create | src/app/api/channels/route.ts:5-60 | 500, 401, the 400s, then 403 exactly when the caller is not an admin or moderator of the server; a name check by exact equality with "general"; success appends the channel with the caller as creator |
| ChannelRoute.Post | src/app/api/channels/route.ts:5-60 | the handler's store calls produce `Create` |
| ChannelRoute.GuestsAreForbidden | src/app/api/channels/route.ts:26-43 | a caller who is only a guest of the server gets 403 |
| DirectMessages.Start | src/app/api/direct-messages/route.ts:5-50 | 500, 401, 400 for a missing username; 404 exactly when no user's name contains it; otherwise the first such user, never the caller, with id `dm-<me>-<target>` and no writes |
| DirectMessages.ConversationIdInjective | src/app/api/direct-messages/route.ts:38 | for one caller, different targets give different ids |
| DirectMessages.ConversationIdNotSymmetric | src/app/api/direct-messages/route.ts:38 | the id depends on who starts, and the pairs ("x", "x-x") and ("x-x", "x") collide |
| DirectMessages.List | src/app/api/direct-messages/route.ts:52-69 | 401 without a caller, otherwise an empty list |
| PublicServers.Cards | src/app/api/servers/public/route.ts:47-55 | one card per server, in order |
| PublicServers.Discover | src/app/api/servers/public/route.ts:5-62 | 401, 500; otherwise the cards of exactly the first min(10, n) of the n servers, in storage order, that the caller has not joined and whose name contains a non-empty search, each card marked public with its member count and the matching description |
| PublicServers.JoinedNotListed | src/app/api/servers/public/route.ts:19-25 | a joined server is never listed |
| InitialProfile.LocalPart | src/lib/initial-profile.ts:25 | the text before the first '@' of the email |
| InitialProfile.DisplayName | src/lib/initial-profile.ts:25 | the trimmed `first last`, or the email's local part when that is blank |
| InitialProfile.FirstNameOnly | src/lib/initial-profile.ts:25 | a first name alone, already trimmed, is the name |
| InitialProfile.Sync | src/lib/initial-profile.ts:5-32 | redirect without a user; an existing profile is returned with no writes; otherwise exactly one profile is created from the display name, the first email and the image URL, and a user without an email throws |
| InitialProfile.Run | src/lib/initial-profile.ts:5-32 | the function's store calls produce `Sync` |
| InitialProfile.SecondCallFindsProfile | src/lib/initial-profile.ts:12-29 | a second call returns the profile the first created and writes nothing |
| AudioProvider.Clamp | src/components/providers/audio-provider.tsx:159-171 | `Math.max(lo, Math.min(hi, v))` lies in range and is `v` when `v` already is |
| AudioProvider.MicrophoneToggled | src/components/providers/audio-provider.tsx:133-150 | flips `microphoneMuted` and nothing else |
| AudioProvider.HeadphonesToggled | src/components/providers/audio-provider.tsx:152-157 | flips `headphonesMuted` and nothing else |
| AudioProvider.ToggleTwice | src/components/providers/audio-provider.tsx:133-157 | toggling twice is the identity, and the two toggles commute |
| AudioProvider.WithInputVolume | src/components/providers/audio-provider.tsx:159-164 | clamps into 0..100 and changes only the input volume |
| AudioProvider.WithOutputVolume | src/components/providers/audio-provider.tsx:166-171 | clamps into 0..100 and changes only the output volume |
| AudioProvider.WithInputDevice | src/components/providers/audio-provider.tsx:173-184 | selects the input device and changes nothing else |
| AudioProvider.WithOutputDevice | src/components/providers/audio-provider.tsx:186-191 | selects the output device and changes nothing else |
| AudioProvider.WithParticipantVolume | src/components/providers/audio-provider.tsx:193-202 | clamps into 0..200 and changes only that participant's entry |
| AudioProvider.GetParticipantVolume | src/components/providers/audio-provider.tsx:204-206 | the stored value, 0 included, or 100 when absent |
| AudioProvider.WithoutParticipantVolume | src/components/providers/audio-provider.tsx:208-217 | removes only that participant's entry |
| AudioProvider.ParticipantVolumeRoundTrip | src/components/providers/audio-provider.tsx:193-217 | a set reads back clamped, a reset reads back 100, and other participants read the same |
| AudioProvider.FirstId | src/components/providers/audio-provider.tsx:98-101 | the first device's id, or nothing for no devices or an empty id |
| AudioProvider.Refreshed | src/components/providers/audio-provider.tsx:89-106 | the device lists are the audio inputs and outputs in order; a selected device is kept, otherwise the first is picked |
| AudioProvider.RefreshKeepsSelection | src/components/providers/audio-provider.tsx:95-102 | once a refresh selects an input, later refreshes keep it |
| AudioProvider.Load | src/components/providers/audio-provider.tsx:59-65 | a field the parsed record holds wins, an absent one keeps the previous value, and the device lists are emptied |
| AudioProvider.LoadSave | src/components/providers/audio-provider.tsx:59-65 | loading what was saved gives the settings back with empty device lists, saving again gives the same record, and an empty record keeps the previous settings (also lines 76-86) |
| AudioProvider.AfterPermissionRequest | src/components/providers/audio-provider.tsx:108-131 | a refused request or a failed enumeration changes nothing; a granted one is `Refreshed` with the enumerated devices; a selected device survives either way |
| AudioProvider.Provider.constructor | src/components/providers/audio-provider.tsx:39-49 | unmuted, volumes 100, no devices, no participant volumes |
| AudioProvider.Provider.ToggleMicrophone | src/components/providers/audio-provider.tsx:133-150 | the new settings are `MicrophoneToggled` of the old |
| AudioProvider.Provider.ToggleHeadphones | src/components/providers/audio-provider.tsx:152-157 | the new settings are `HeadphonesToggled` of the old |
| AudioProvider.Provider.SetInputVolume | src/components/providers/audio-provider.tsx:159-164 | the new settings are `WithInputVolume` of the old |
| AudioProvider.Provider.SetOutputVolume | src/components/providers/audio-provider.tsx:166-171 | the new settings are `WithOutputVolume` of the old |
| AudioProvider.Provider.SetInputDevice | src/components/providers/audio-provider.tsx:173-184 | the new settings are `WithInputDevice` of the old |
| AudioProvider.Provider.SetOutputDevice | src/components/providers/audio-provider.tsx:186-191 | the new settings are `WithOutputDevice` of the old |
| AudioProvider.Provider.SetParticipantVolume | src/components/providers/audio-provider.tsx:193-202 | the new settings are `WithParticipantVolume` of the old |
| AudioProvider.Provider.ResetParticipantVolume | src/components/providers/audio-provider.tsx:208-217 | the new settings are `WithoutParticipantVolume` of the old |
| AudioProvider.Provider.RefreshDevices | src/components/providers/audio-provider.tsx:89-106 | the new settings are `Refreshed` of the old |
| AudioProvider.Provider.RequestMicrophonePermission | src/components/providers/audio-provider.tsx:108-131 | answers whether the stream was granted; the new settings are `AfterPermissionRequest` of the old |
| AudioControls.Controls.constructor | src/hooks/use-audio-controls.ts:19-20 | no permission, no request in progress |
| AudioControls.Controls.HandleMicrophoneToggle | src/hooks/use-audio-controls.ts:41-53 | a click without permission and with no request running starts a request and changes no setting; any other click, one during a pending request included, toggles at once |
| AudioControls.Controls.FinishMicrophoneRequest | src/hooks/use-audio-controls.ts:44-53 | when the request settles, the permission is the answer and the request is over; a denial changes no setting; a grant refreshes the devices (audio-provider.tsx:125) and then toggles once |
| AudioControls.ClickDuringRequest | src/hooks/use-audio-controls.ts:41-63 | a second click while the first click's request is pending toggles at once, so the microphone ends unmuted after a grant and muted after a denial, with the matching icon |
| AudioControls.Controls.HandleHeadphonesToggle | src/hooks/use-audio-controls.ts:56-58 | toggles the headphones |
| AudioControls.MicrophoneIcon | src/hooks/use-audio-controls.ts:60-63 | `mic-off` exactly while requesting or muted |
| AudioControls.MicrophoneTooltip | src/hooks/use-audio-controls.ts:69-73 | requesting first, then no permission, then the mute state |
| AudioControls.HeadphonesIcon | src/hooks/use-audio-controls.ts:65-67 | `volume-x` exactly when the headphones are muted |
| AudioControls.HeadphonesTooltip | src/hooks/use-audio-controls.ts:75-77 | "Unmute headphones" exactly when muted |
| ParticipantVolumeModal.Description | src/components/modals/participant-volume-modal.tsx:73-79 | Muted when muted or at 0, else Quiet below 50, Loud above 150, Normal otherwise |
| ParticipantVolumeModal.BadgeClass | src/components/modals/participant-volume-modal.tsx:66-71 | the red, yellow, orange and green classes follow the same thresholds |
| ParticipantVolumeModal.MuteToggleVolume | src/components/modals/participant-volume-modal.tsx:45-56 | muting gives 0; unmuting from 0 gives 100, otherwise the volume |
| ParticipantVolumeModal.VolumeModal.constructor | src/components/modals/participant-volume-modal.tsx:25-26 | volume 100, unmuted |
| ParticipantVolumeModal.VolumeModal.Open | src/components/modals/participant-volume-modal.tsx:29-35 | loads the stored volume, muted exactly at 0 |
| ParticipantVolumeModal.VolumeModal.HandleVolumeChange | src/components/modals/participant-volume-modal.tsx:37-43 | stores the volume and keeps `isMuted` equivalent to a zero volume; without a participant, nothing |
| ParticipantVolumeModal.VolumeModal.HandleToggleMute | src/components/modals/participant-volume-modal.tsx:45-56 | stores `MuteToggleVolume` and keeps the mute invariant; without a participant, nothing |
| ParticipantVolumeModal.VolumeModal.HandleReset | src/components/modals/participant-volume-modal.tsx:58-64 | removes the entry, so it reads back 100, and unmutes; without a participant, nothing |
| ParticipantVolumeModal.MuteThenUnmute | src/components/modals/participant-volume-modal.tsx:45-56 | mute followed by unmute ends at 100, not at the earlier volume |
| VoiceChannelUsers.VolumeIndicator | src/components/voice-channel-users.tsx:88-106 | the branches in order 0, below 50, above 150, not 100, exactly 100, with exactly one applying, their colours and tooltips, and the stored volume |
| VoiceChannelUsers.RingClass | src/components/voice-channel-users.tsx:108-114 | red at 0, accent above 120, the border ring otherwise |
| VoiceChannelUsers.BandsAgree | src/components/voice-channel-users.tsx:88-137 | the indicator's bands agree with the volume dialog's description, and the muted microphone shows exactly at 0 |
| VoiceChannelUsers.UserList.constructor | src/components/voice-channel-users.tsx:30-31 | no participants, loading |
| VoiceChannelUsers.UserList.FetchParticipants | src/components/voice-channel-users.tsx:36-51 | an OK answer with a list replaces the participants; any other outcome empties them; loading ends |
| ChatItem.Extension | src/components/chat/chat-item.tsx:88 | a dot-free suffix of the URL, preceded by a dot when shorter than the URL, and the whole URL when it has no dot |
| ChatItem.FileType | src/components/chat/chat-item.tsx:88 | nothing exactly without a URL, otherwise the extension lower-cased, which has no dot |
| ChatItem.ListsDisjoint | src/components/chat/chat-item.tsx:97-103 | the extension lists share no extension |
| ChatItem.ImageTypesApart | src/components/chat/chat-item.tsx:97-103 | proof helper: no image extension is in a later list or is "pdf" |
| ChatItem.DocumentTypesApart | src/components/chat/chat-item.tsx:97-103 | proof helper: no document extension is in a later list or is "pdf" |
| ChatItem.ExactlyOneCategory | src/components/chat/chat-item.tsx:97-104 | for a non-empty URL exactly one of the eight file flags holds, and for a missing or empty one none does |
| ChatItem.EditImpliesDelete | src/components/chat/chat-item.tsx:90-94 | deleting needs only ownership of a live message; editing also needs no file, so it implies deleting |
| ChatItem.BodyExclusive | src/components/chat/chat-item.tsx:236-259 | text and the deleted notice never show together; a file hides both; a live message without a file shows text exactly when it has content; a deleted message shows no reactions |
| MessageReactions.ClickAction | src/components/message-reactions.tsx:32-39 | removes exactly when the first reaction with the emoji lists the user, adds otherwise |
| MessageReactions.FirstMatch | src/components/message-reactions.tsx:33 | `find` returns the first reaction with the emoji |
| MessageReactions.ClickMatchesHighlight | src/components/message-reactions.tsx:32-39 | for a chip whose emoji no earlier chip carries, the click removes exactly when the chip is highlighted (line 53) and adds otherwise |
| MessageReactions.ClickFollowsFirstChip | src/components/message-reactions.tsx:33 | a chip whose emoji an earlier chip carries removes or adds as that earlier chip's highlight says |
| MessageReactions.ReactionBar.constructor | src/components/message-reactions.tsx:30 | the picker starts hidden |
| MessageReactions.ReactionBar.HandleReactionClick | src/components/message-reactions.tsx:32-39 | the call made is `ClickAction` |
| MessageReactions.ReactionBar.HandleEmojiSelect | src/components/message-reactions.tsx:41-44 | always adds, and hides the picker |
| MessageReactions.ReactionBar.TogglePicker | src/components/message-reactions.tsx:78 | flips the picker |
| MessageReactions.ReactionBar.ClosePicker | src/components/message-reactions.tsx:86 | hides the picker |
| MessageReactions.PickerShowsEmptyRow | src/components/message-reactions.tsx:41-48 | with no reactions, opening the picker and choosing an emoji adds it |
| ChannelMemberSidebar.ByRole | src/components/channel-member-sidebar.tsx:106-116 | each group is the members with that role, in input order |
| ChannelMemberSidebar.ByRoleAppend | src/components/channel-member-sidebar.tsx:112-114 | pushing one more member into its role's group is grouping the longer list |
| ChannelMemberSidebar.MembersByRole | src/components/channel-member-sidebar.tsx:106-116 | the push loop builds `ByRole` |
| ChannelMemberSidebar.GroupsPartition | src/components/channel-member-sidebar.tsx:112-114 | a member is in a group exactly when it has that role, and each group keeps input order |
| ChannelMemberSidebar.GroupSizesSum | src/components/channel-member-sidebar.tsx:112-114 | the group sizes add up to the member count |
| ChannelMemberSidebar.EveryRoleOrdered | src/components/channel-member-sidebar.tsx:28 | every role appears in the display order |
| ChannelMemberSidebar.VisibleGroups | src/components/channel-member-sidebar.tsx:28 | ADMIN, MODERATOR, GUEST in that order, empty groups hidden once loading ends, all shown while loading (also lines 143-145) |
| ChannelMemberSidebar.Handle | src/components/channel-member-sidebar.tsx:195 | "@" and the last six characters of the id, or the whole id when it has at most six |
| ChannelMemberSidebar.CountLabel | src/components/channel-member-sidebar.tsx:140 | empty exactly while loading |
| ChannelMemberSidebar.Sidebar.constructor | src/components/channel-member-sidebar.tsx:42-44 | no members, loading, expanded |
| ChannelMemberSidebar.Sidebar.FinishLoad | src/components/channel-member-sidebar.tsx:49-69 | a cancelled load changes nothing; otherwise loading ends and an OK answer replaces the members |
| ChannelMemberSidebar.Sidebar.OnMembersUpdated | src/components/channel-member-sidebar.tsx:72-94 | refetches only for its own server id |
| ChannelMemberSidebar.Sidebar.ToggleCollapsed | src/components/channel-member-sidebar.tsx:126 | flips the collapse flag only |
| ChannelMemberSidebar.OtherServerIgnored | src/components/channel-member-sidebar.tsx:74-76 | an update for another server leaves the list empty |
| ServerSettingsModal.Roles | src/components/modals/server-settings-modal.tsx:96-118 | three cards ADMIN, MODERATOR, GUEST, each counting the members with its role |
| ServerSettingsModal.RoleCountsSum | src/components/modals/server-settings-modal.tsx:96-118 | the three counts add up to the member count |
| ServerSettingsModal.CurrentUserRole | src/components/modals/server-settings-modal.tsx:188-193 | ADMIN exactly when some member is an admin, GUEST otherwise |
| ServerSettingsModal.CanManageRoles | src/components/modals/server-settings-modal.tsx:195-205 | exactly when the current role is ADMIN and the target is not an admin |
| ServerSettingsModal.PermissionLabel | src/components/modals/server-settings-modal.tsx:409 | every '_' becomes a space and the rest is lower-cased |
| ServerSettingsModal.PermissionChips | src/components/modals/server-settings-modal.tsx:407-416 | the first min(4, n) labels, and "+(n-4) more" exactly when n > 4 |
| ServerSettingsModal.MemberWord | src/components/modals/server-settings-modal.tsx:404 | "member" exactly for a count of 1 |
| ServerSettingsModal.InitialSettings | src/components/modals/server-settings-modal.tsx:55-61 | the five initial fields |
| ServerSettingsModal.SettingsDialog.constructor | src/components/modals/server-settings-modal.tsx:55-63 | the initial settings and no members |
| ServerSettingsModal.SettingsDialog.HandleSettingChange | src/components/modals/server-settings-modal.tsx:122-127 | changes only the named key |
| ServerSettingsModal.SettingsDialog.FetchServerData | src/components/modals/server-settings-modal.tsx:65-93 | only when open on the settings dialog with a server id; an OK server answer sets name and invite code; members are replaced by an OK list unless the first request threw |
| ServerSettingsModal.SettingsDialog.GenerateNewInviteCode | src/components/modals/server-settings-modal.tsx:143-159 | an OK answer sets the invite code only |
| ServerSettingsModal.SettingsDialog.RefreshAfterChange | src/components/modals/server-settings-modal.tsx:161-185 | after an OK role change or kick, an OK refetch replaces the members; nothing else changes (also lines 207-228) |
| ModalStore.Opened | src/hooks/use-modal-store.ts:31 | open with the type and the data, `{}` by default, setup flag kept |
| ModalStore.Closed | src/hooks/use-modal-store.ts:32 | closed with no type, data and setup flag kept |
| ModalStore.WithSetupCompleted | src/hooks/use-modal-store.ts:33 | changes only the setup flag |
| ModalStore.CloseIdempotent | src/hooks/use-modal-store.ts:27-33 | closing twice is closing once, opening after a close forgets the close, and the initial state is consistent |
| ModalStore.Modal.constructor | src/hooks/use-modal-store.ts:27-30 | no type, empty data, closed, setup not completed |
| ModalStore.Modal.OnOpen | src/hooks/use-modal-store.ts:31 | the new state is `Opened` of the old |
| ModalStore.Modal.OnClose | src/hooks/use-modal-store.ts:32 | the new state is `Closed` of the old |
| ModalStore.Modal.SetSetupCompleted | src/hooks/use-modal-store.ts:33 | the new state is `WithSetupCompleted` of the old |
| ServerDiscoveryModal.FilteredServers | src/components/modals/server-discovery-modal.tsx:93-96 | a server is kept exactly when its lower-cased name or description contains the lower-cased query, in order; without a description only the name counts |
| ServerDiscoveryModal.EmptyQueryKeepsAll | src/components/modals/server-discovery-modal.tsx:93-96 | an empty query keeps every server |
| ServerDiscoveryModal.SearchParam | src/components/modals/server-discovery-modal.tsx:46-49 | the `search` parameter is sent exactly for a non-empty query |
| ServerDiscoveryModal.DiscoveryDialog.constructor | src/components/modals/server-discovery-modal.tsx:32-34 | no servers, empty query, not loading |
| ServerDiscoveryModal.DiscoveryDialog.FetchPublicServers | src/components/modals/server-discovery-modal.tsx:44-62 | an OK answer replaces the list, anything else empties it |
| ServerDiscoveryModal.DiscoveryDialog.SetSearchQuery | src/components/modals/server-discovery-modal.tsx:33 | sets the query only |
| ServerDiscoveryModal.DiscoveryDialog.HandleJoinServer | src/components/modals/server-discovery-modal.tsx:64-91 | an OK join closes the dialog and navigates to the server; loading ends either way |
| CreateChannelModal.NameError | src/components/modals/create-channel-modal.tsx:37-45 | "required" for an empty name, the "general" message for exactly "general", none otherwise |
| CreateChannelModal.ParseType | src/components/modals/create-channel-modal.tsx:46 | exactly TEXT, VOICE and VIDEO parse |
| CreateChannelModal.TypeNameParses | src/components/modals/create-channel-modal.tsx:46 | every channel type's name parses back to it |
| CreateChannelModal.ChannelPath | src/components/modals/create-channel-modal.tsx:97 | `/servers/<serverId>/channels/<newId>` |
| CreateChannelModal.CreateChannelForm.constructor | src/components/modals/create-channel-modal.tsx:58-61 | name "" and type TEXT |
| CreateChannelModal.CreateChannelForm.OnOpen | src/components/modals/create-channel-modal.tsx:64-68 | on open the type is the one passed, or TEXT |
| CreateChannelModal.CreateChannelForm.Submit | src/components/modals/create-channel-modal.tsx:78-104 | sends exactly when the schema accepts; an OK answer resets, closes and navigates to the new channel; otherwise nothing changes |
| CreateChannelModal.CreateChannelForm.HandleClose | src/components/modals/create-channel-modal.tsx:106-109 | resets and closes |
| CreateChannelModal.VoiceChannelAccepted | src/components/modals/create-channel-modal.tsx:64-68 | a dialog opened for a voice channel with a name passes the schema |
| EditChannelModal.Parse | src/components/modals/edit-channel-modal.tsx:39-52 | accepts exactly a valid name, an enum type and a slow mode of 0 to 300; fills in private false and slow mode 0 |
| EditChannelModal.SlowModeInput | src/components/modals/edit-channel-modal.tsx:270 | input that does not parse as an integer becomes 0 |
| EditChannelModal.SlowModeInputRoundTrip | src/components/modals/edit-channel-modal.tsx:270 | typing back a shown number gives that number |
| EditChannelModal.EditChannelForm.constructor | src/components/modals/edit-channel-modal.tsx:62-71 | the default values |
| EditChannelModal.EditChannelForm.LoadChannel | src/components/modals/edit-channel-modal.tsx:73-81 | a channel's values with the fallbacks "", false and 0 |
| EditChannelModal.EditChannelForm.OnSlowModeInput | src/components/modals/edit-channel-modal.tsx:270 | sets the slow mode to `SlowModeInput` only |
| EditChannelModal.EditChannelForm.Submit | src/components/modals/edit-channel-modal.tsx:85-104 | sends the accepted values; unless the request throws the form is reset and the dialog closed, whatever the status |
| EditChannelModal.EditChannelForm.HandleClose | src/components/modals/edit-channel-modal.tsx:123-126 | resets and closes |
| EditChannelModal.OnDelete | src/components/modals/edit-channel-modal.tsx:106-121 | unless the request throws, navigates to the server and closes |
| EditChannelModal.LoadedDefaultsSubmit | src/components/modals/edit-channel-modal.tsx:73-81 | a channel without optional fields submits with the defaults (also lines 39-52) |
| UserSettingsModal.NameParts | src/components/modals/user-settings-modal.tsx:117-128 | the first ' '-token of the trimmed name, and the rest joined by ' ', omitted exactly when empty |
| UserSettingsModal.SplitFirstRest | src/components/modals/user-settings-modal.tsx:117-119 | for a string not ending in a space, the first part and the rest joined by one space give the string back |
| UserSettingsModal.NamePartsRoundTrip | src/components/modals/user-settings-modal.tsx:117-128 | the first name has no space, and it followed by " " and the last name, when present, is exactly the trimmed name |
| UserSettingsModal.SaveError | src/components/modals/user-settings-modal.tsx:108-111 | no error exactly for an OK patch; the response text or "Failed to update profile"; a thrown error's message (also lines 142-144) |
| UserSettingsModal.InitialSettings | src/components/modals/user-settings-modal.tsx:46-64 | the display name is the full name or "", with the other defaults |
| UserSettingsModal.UserSettingsDialog.constructor | src/components/modals/user-settings-modal.tsx:44-64 | the initial settings, no error, not loading |
| UserSettingsModal.UserSettingsDialog.OnUserChanged | src/components/modals/user-settings-modal.tsx:69-76 | a signed-in user's full name, or "", becomes the display name |
| UserSettingsModal.UserSettingsDialog.HandleSettingChange | src/components/modals/user-settings-modal.tsx:78-84 | clears the error and changes only the named key |
| UserSettingsModal.UserSettingsDialog.HandleSave | src/components/modals/user-settings-modal.tsx:86-148 | a blank name sets the error and sends nothing; otherwise the name is patched, a failure sets `SaveError`, an OK patch sends `NameParts` to the auth provider for a signed-in user, closes the dialog and reloads; loading ends |
| ServerSidebarButton.Badge | src/components/ui/server-sidebar-button.tsx:27-29 | no badge for a missing, zero or negative count; the count up to 99; "99+" above |
| ServerSidebarButton.BadgeFits | src/components/ui/server-sidebar-button.tsx:29 | a shown count is at most three characters and reads back as the count |
| Store.Database.constructor | src/app/api/socket/messages/route.ts:3 | stands for the store's contents when a request arrives: the `db` handle every route imports holds the given tables and failure flag (src/lib/db.ts is not part of this model) |

## Left out

- Transport: socket.io's ping, upgrade and CORS settings (`server.js:24-36`), the HTTP and Next.js bootstrap (`server.js:1-21`, `server.js:234-243`), logging, client reconnection, and delivery order across connections. An outbox is a list; nothing is delivered.
- Realtime.Dispatcher.Disconnect: that socket.io removes a closing connection from all its rooms before the `disconnect` handler runs is an assumption about the library, not something proved here.
- Room membership in the socket.io adapter is modelled as an insertion-ordered list without duplicates. Empty rooms are deleted, as the adapter does.
- The `chat-join`/`chat-leave` pairing that chat screens do on mount and unmount is not modelled. The dispatcher accepts any interleaving.
- Store semantics: Prisma `contains` is plain substring search, with no case folding or collation. `orderBy` is a stable sort on an integer `createdAt`. Transactions and concurrent requests are not modelled. Each route's first store call either throws (`failing`) or the whole route succeeds.
- FriendRequests.SortedPair: JavaScript's default `sort` compares UTF-16 code units, and the model compares code points. They agree on the Basic Multilingual Plane only.
- Auth: Clerk's `currentProfile` and `currentUser` are `Option` parameters. The user settings dialog's `handleLogout` is a call into the auth SDK and is not modelled.
- LiveKit tokens, media rooms, the profile and server-user routes, and invite-code randomness are not part of this model.
- The voice REST endpoints for heartbeat, join, leave and participants are not part of this model. Only the cleanup sweep is modelled.
- AudioProvider.Provider.SetInputDevice: the restart of an active stream (lines 179-183) is not modelled, because the media stream is not part of the model; the follow-up permission request and its device refresh are therefore left out.
- Friends.List requires that both ends of every friendship name a stored user, which the schema's `userA` and `userB` relations guarantee. The Prisma schema is not part of this model. Two stored users with the same id are not ruled out; the answer then takes the first.
- MessageRoute.Post: the created message is answered and emitted without the author row that `include: { user: true }` adds (src/app/api/socket/messages/route.ts:73-75, 78, 81). One `Message` record is shared by the route, the socket server and the client cache, and it carries only `userId`.
- FriendRequests.ListPending: the request rows are answered without the `fromUser` and `toUser` rows that the `include`s add (src/app/api/friends/requests/route.ts:79, 84). Only the rows' selection and order are modelled.
- Browser APIs: device enumeration, `getUserMedia`, the audio track's `enabled` flag, `localStorage` (modelled only as a saved record with `Save` and `Load`), the permissions API, the clipboard (`copyInviteCode` in the server settings dialog), `fetch` (its outcome is a parameter), `window.location`, `router`, and timers.
- The member sidebar's collapse animation and its `showContent` timer are not modelled.
- Floating point: slider preset positions and `parseInt` returning NaN inside `Math.max`/`Math.min`. Volumes are integers.
- `toLowerCase` is ASCII-only.
- The create-channel dialog's request body and its `serverId` query parameter (`data?.server?.id || ""`) are not modelled. Only whether a request is sent, and where an OK answer navigates, are modelled. Its second effect (lines 70-74) only clears a name that is already empty at mount, so it is not modelled.
- ModalStore: a dialog's data holds only the fields that the modelled dialogs read.
- UserSettingsModal.SaveError: a thrown value that is not an `Error` would give "Failed to save settings. Please try again."; the model's thrown outcome always carries a message. The auth provider's own failure is ignored, as in the source.
- UserSettingsModal.UserSettingsDialog.HandleSettingChange requires that the display-name input passes a string, as the text inputs do.
- Rendering: the JSX of every component, and the other dialogs, providers, sidebars and avatars, which hold no state beyond what their props give.
