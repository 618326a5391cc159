/** The socket.io server of server.js: a dispatcher keeping, per connection, the
    `socket.data` record its handlers write, and the room table of the socket.io
    adapter ("voice-channel:<id>" and "chat:<id>" rooms).  Every handler is a
    method returning the emissions it causes, one `Emission` per receiving
    connection, in room order. */
module Realtime {
  import opened Wrappers
  import opened Seqs
  import opened Messages

  /** A connection (`socket.id`). */
  type ConnId = string

  /** A value read out of an event payload or out of `socket.data`. */
  datatype JsVal = Undefined | Null | Str(s: string) {

    /** JavaScript truthiness: only a non-empty string is truthy. */
    predicate Truthy() {
      Str? && s != ""
    }

    /** How a template literal renders the value. */
    function Render(): string {
      match this
      case Undefined => "undefined"
      case Null => "null"
      case Str(s) => s
    }
  }

  const VoicePrefix: string := "voice-channel:"
  const ChatPrefix: string := "chat:"

  /** `voice-channel:${channelId}` */
  function VoiceRoom(channelId: JsVal): string {
    VoicePrefix + channelId.Render()
  }

  /** `chat:${chatId}` */
  function ChatRoom(chatId: JsVal): string {
    ChatPrefix + chatId.Render()
  }

  /** Voice rooms and chat rooms never share a name, so the two kinds of traffic never mix. */
  lemma VoiceAndChatRoomsDiffer(a: JsVal, b: JsVal)
    ensures VoiceRoom(a) != ChatRoom(b)
  {
    assert VoiceRoom(a)[0] == 'v' && ChatRoom(b)[0] == 'c';
  }

  /** Two channel ids name the same voice room exactly when they render alike. */
  lemma VoiceRoomNames(a: JsVal, b: JsVal)
    ensures VoiceRoom(a) == VoiceRoom(b) <==> a.Render() == b.Render()
  {
    if VoiceRoom(a) == VoiceRoom(b) {
      assert a.Render() == VoiceRoom(a)[|VoicePrefix|..];
      assert b.Render() == VoiceRoom(b)[|VoicePrefix|..];
    }
  }

  /** Two chat ids name the same chat room exactly when they render alike. */
  lemma ChatRoomNames(a: JsVal, b: JsVal)
    ensures ChatRoom(a) == ChatRoom(b) <==> a.Render() == b.Render()
  {
    if ChatRoom(a) == ChatRoom(b) {
      assert a.Render() == ChatRoom(a)[|ChatPrefix|..];
      assert b.Render() == ChatRoom(b)[|ChatPrefix|..];
    }
  }

  /** A missing channel id and the string "undefined" select the same voice room. */
  lemma MissingIdSharesRoom()
    ensures VoiceRoom(Undefined) == VoiceRoom(Str("undefined"))
    ensures Undefined != Str("undefined")
  {
  }

  /** `socket.data`; a new connection starts with every field undefined. */
  datatype SocketData = SocketData(
    userId: JsVal,
    userName: JsVal,
    userAvatar: JsVal,
    currentVoiceChannel: JsVal)

  const FreshData := SocketData(Undefined, Undefined, Undefined, Undefined)

  /** Event payloads.  A handler given `None` (a null or undefined payload) throws
      when it destructures it. */
  datatype VoiceJoinPayload = VoiceJoinPayload(channelId: JsVal, userId: JsVal, userName: JsVal, userAvatar: JsVal)
  datatype VoiceLeavePayload = VoiceLeavePayload(channelId: JsVal, userId: JsVal, userName: JsVal)
  datatype ParticipantsQuery = ParticipantsQuery(channelId: JsVal)
  datatype ChatPayload = ChatPayload(chatId: JsVal, userId: JsVal)
  datatype MessagePayload = MessagePayload(chatId: JsVal, message: Message)
  datatype DeletionPayload = DeletionPayload(chatId: JsVal, messageId: string)

  datatype Participant = Participant(userId: JsVal, userName: JsVal, userAvatar: JsVal)

  /** Events the server sends to clients. */
  datatype OutEvent =
    | UserJoined(userId: JsVal, userName: JsVal, userAvatar: JsVal, channelId: JsVal)  // "voice-channel-user-joined"
    | UserLeft(userId: JsVal, channelId: JsVal)                                       // "voice-channel-user-left"
    | Participants(channelId: JsVal, participants: seq<Participant>)                  // "voice-channel-participants"
    | MessageReceived(message: Message)                                               // "message-received"
    | MessageChanged(message: Message)                                                // "message-changed"
    | MessageRemoved(messageId: string)                                               // "message-removed"

  /** One event delivered to one connection. */
  datatype Emission = Emission(to: ConnId, event: OutEvent)

  function Recipients(out: seq<Emission>): (r: seq<ConnId>)
    ensures |r| == |out|
    ensures forall k :: 0 <= k < |out| ==> r[k] == out[k].to
  {
    seq(|out|, k requires 0 <= k < |out| => out[k].to)
  }

  /** `io.in(room).emit(ev)`: every member of the room, the sender included, gets `ev`. */
  function Broadcast(members: seq<ConnId>, ev: OutEvent): (out: seq<Emission>)
    ensures Recipients(out) == members
    ensures forall e | e in out :: e.event == ev
  {
    seq(|members|, k requires 0 <= k < |members| => Emission(members[k], ev))
  }

  /** A broadcast to one or two members, written out. */
  lemma BroadcastSmall(a: ConnId, b: ConnId, ev: OutEvent)
    ensures Broadcast([a], ev) == [Emission(a, ev)]
    ensures Broadcast([a, b], ev) == [Emission(a, ev), Emission(b, ev)]
  {
    var two := Broadcast([a, b], ev);
    assert |two| == 2 && two[0] == Emission(a, ev) && two[1] == Emission(b, ev);
  }

  /** `socket.to(room).emit(ev)`: every member of the room except the sender gets `ev`. */
  function BroadcastExcept(members: seq<ConnId>, sender: ConnId, ev: OutEvent): (out: seq<Emission>)
    ensures forall c :: c in Recipients(out) <==> c in members && c != sender
    ensures sender !in Recipients(out)
    ensures IsSubseq(Recipients(out), members)
    ensures forall e | e in out :: e.event == ev
  {
    Broadcast(Filter(members, c => c != sender), ev)
  }

  // ---------------------------------------------------------------------------
  // The room table: an insertion-ordered set of connections per room name; a
  // room that becomes empty is deleted.

  type RoomTable = map<string, seq<ConnId>>

  function MembersOf(rooms: RoomTable, room: string): seq<ConnId> {
    if room in rooms then rooms[room] else []
  }

  /** `Set.add`: a new member goes last; an existing member keeps its place. */
  function RoomAdd(members: seq<ConnId>, c: ConnId): (r: seq<ConnId>)
    ensures forall x :: x in r <==> x in members || x == c
    ensures |members| <= |r| <= |members| + 1 && r[..|members|] == members
    ensures NoDup(members) ==> NoDup(r)
  {
    if c in members then members else members + [c]
  }

  /** `Set.delete`: the others keep their order. */
  function RoomRemove(members: seq<ConnId>, c: ConnId): (r: seq<ConnId>)
    ensures forall x :: x in r <==> x in members && x != c
    ensures IsSubseq(r, members)
    ensures NoDup(members) ==> NoDup(r)
  {
    FilterNoDup(members, x => x != c);
    Filter(members, x => x != c)
  }

  /** `socket.join(room)` */
  function JoinRoom(rooms: RoomTable, room: string, c: ConnId): RoomTable {
    rooms[room := RoomAdd(MembersOf(rooms, room), c)]
  }

  /** `socket.leave(room)`; the room disappears once empty. */
  function LeaveRoom(rooms: RoomTable, room: string, c: ConnId): RoomTable {
    var rest := RoomRemove(MembersOf(rooms, room), c);
    if rest == [] then rooms - {room} else rooms[room := rest]
  }

  /** `socket.leaveAll()`, run by socket.io when a connection closes. */
  function LeaveAll(rooms: RoomTable, c: ConnId): (r: RoomTable)
    ensures forall room | room in r :: c !in r[room]
    ensures forall room, x | room in rooms && x in rooms[room] && x != c :: room in r && x in r[room]
    ensures forall room | room in r :: room in rooms
  {
    map room | room in rooms && RoomRemove(rooms[room], c) != [] :: RoomRemove(rooms[room], c)
  }

  /** The invariant the adapter keeps: rooms are non-empty, duplicate-free and hold
      only connected sockets. */
  ghost predicate WellFormed(sockets: map<ConnId, SocketData>, rooms: RoomTable) {
    forall room | room in rooms ::
      |rooms[room]| > 0 && NoDup(rooms[room]) && forall x | x in rooms[room] :: x in sockets
  }

  lemma JoinKeepsWellFormed(sockets: map<ConnId, SocketData>, rooms: RoomTable, room: string, c: ConnId)
    requires WellFormed(sockets, rooms) && c in sockets
    ensures WellFormed(sockets, JoinRoom(rooms, room, c))
  {
  }

  lemma LeaveKeepsWellFormed(sockets: map<ConnId, SocketData>, rooms: RoomTable, room: string, c: ConnId)
    requires WellFormed(sockets, rooms)
    ensures WellFormed(sockets, LeaveRoom(rooms, room, c))
  {
  }

  lemma CloseKeepsWellFormed(sockets: map<ConnId, SocketData>, rooms: RoomTable, c: ConnId)
    requires WellFormed(sockets, rooms)
    ensures WellFormed(sockets - {c}, LeaveAll(rooms, c))
  {
    var r := LeaveAll(rooms, c);
    forall room | room in r
      ensures |r[room]| > 0 && NoDup(r[room]) && forall x | x in r[room] :: x in sockets - {c}
    {
      assert r[room] == RoomRemove(rooms[room], c);
    }
  }

  // ---------------------------------------------------------------------------
  // "voice-channel-get-participants": who is listed.

  /** A connection is listed when `sock?.data?.userId` is truthy. */
  predicate Listed(sockets: map<ConnId, SocketData>, c: ConnId) {
    c in sockets && sockets[c].userId.Truthy()
  }

  /** The entry for one socket; a falsy avatar becomes undefined. */
  function ToParticipant(d: SocketData): Participant {
    Participant(d.userId, d.userName, if d.userAvatar.Truthy() then d.userAvatar else Undefined)
  }

  /** The participant list built from the members, in room order. */
  function Roster(members: seq<ConnId>, sockets: map<ConnId, SocketData>): seq<Participant>
    decreases |members|
  {
    if |members| == 0 then []
    else
      var last := members[|members| - 1];
      Roster(members[..|members| - 1], sockets)
        + (if Listed(sockets, last) then [ToParticipant(sockets[last])] else [])
  }

  /** The roster lists exactly the members with a truthy user id, never anyone
      else, each entry with a truthy user id and a truthy-or-undefined avatar. */
  lemma {:induction false} RosterContents(members: seq<ConnId>, sockets: map<ConnId, SocketData>)
    ensures |Roster(members, sockets)| <= |members|
    ensures forall c | c in members && Listed(sockets, c) :: ToParticipant(sockets[c]) in Roster(members, sockets)
    ensures forall p | p in Roster(members, sockets) ::
      exists k | 0 <= k < |members| :: Listed(sockets, members[k]) && p == ToParticipant(sockets[members[k]])
    ensures forall p | p in Roster(members, sockets) ::
      p.userId.Truthy() && (p.userAvatar.Truthy() || p.userAvatar == Undefined)
    decreases |members|
  {
    if |members| > 0 {
      var init := members[..|members| - 1];
      RosterContents(init, sockets);
      assert members == init + [members[|members| - 1]];
      forall p | p in Roster(members, sockets)
        ensures exists k | 0 <= k < |members| :: Listed(sockets, members[k]) && p == ToParticipant(sockets[members[k]])
      {
        if p in Roster(init, sockets) {
          var k :| 0 <= k < |init| && Listed(sockets, init[k]) && p == ToParticipant(sockets[init[k]]);
          assert members[k] == init[k];
        } else {
          assert Listed(sockets, members[|members| - 1]);
        }
      }
    }
  }

  /** A room none of whose members has a user id yields an empty list. */
  lemma {:induction false} RosterOfAnonymous(members: seq<ConnId>, sockets: map<ConnId, SocketData>)
    requires forall k | 0 <= k < |members| :: !Listed(sockets, members[k])
    ensures Roster(members, sockets) == []
    decreases |members|
  {
    if |members| > 0 {
      RosterOfAnonymous(members[..|members| - 1], sockets);
    }
  }

  // ---------------------------------------------------------------------------

  class Dispatcher {
    var sockets: map<ConnId, SocketData>
    var rooms: RoomTable

    ghost predicate Valid()
      reads this
    {
      WellFormed(sockets, rooms)
    }

    /** The members of a room, in the order they joined. */
    function Members(room: string): seq<ConnId>
      reads this
    {
      MembersOf(rooms, room)
    }

    constructor ()
      ensures Valid()
      ensures sockets == map[] && rooms == map[]
    {
      sockets := map[];
      rooms := map[];
    }

    /** "connection": a new socket with an empty `socket.data`. */
    method Connect(id: ConnId)
      requires Valid() && id !in sockets
      modifies this
      ensures Valid()
      ensures sockets == old(sockets)[id := FreshData] && rooms == old(rooms)
    {
      sockets := sockets[id := FreshData];
    }

    /** "voice-channel-join": record the four fields, join the voice room, then
        announce the joiner to every member, the joiner included. */
    method VoiceJoin(id: ConnId, data: Option<VoiceJoinPayload>) returns (out: seq<Emission>)
      requires Valid() && id in sockets
      modifies this
      ensures Valid()
      ensures data.None? ==> out == [] && sockets == old(sockets) && rooms == old(rooms)
      ensures data.Some? ==>
        var d := data.value;
        var room := VoiceRoom(d.channelId);
        && sockets == old(sockets)[id := SocketData(d.userId, d.userName, d.userAvatar, d.channelId)]
        && rooms == JoinRoom(old(rooms), room, id)
        && id in Members(room)
        && out == Broadcast(Members(room), UserJoined(d.userId, d.userName, d.userAvatar, d.channelId))
    {
      if data.None? {
        return [];
      }
      var d := data.value;
      sockets := sockets[id := SocketData(d.userId, d.userName, d.userAvatar, d.channelId)];
      var room := VoiceRoom(d.channelId);
      JoinKeepsWellFormed(sockets, rooms, room, id);
      rooms := JoinRoom(rooms, room, id);
      out := Broadcast(Members(room), UserJoined(d.userId, d.userName, d.userAvatar, d.channelId));
    }

    /** "voice-channel-leave": announce to the room while the leaver is still in it,
        leave it, and clear `currentVoiceChannel` whether or not it named this room. */
    method VoiceLeave(id: ConnId, data: Option<VoiceLeavePayload>) returns (out: seq<Emission>)
      requires Valid() && id in sockets
      modifies this
      ensures Valid()
      ensures data.None? ==> out == [] && sockets == old(sockets) && rooms == old(rooms)
      ensures data.Some? ==>
        var d := data.value;
        var room := VoiceRoom(d.channelId);
        && out == Broadcast(old(Members(room)), UserLeft(d.userId, d.channelId))
        && rooms == LeaveRoom(old(rooms), room, id)
        && id !in Members(room)
        && sockets == old(sockets)[id := old(sockets[id]).(currentVoiceChannel := Null)]
    {
      if data.None? {
        return [];
      }
      var d := data.value;
      var room := VoiceRoom(d.channelId);
      out := Broadcast(Members(room), UserLeft(d.userId, d.channelId));
      LeaveKeepsWellFormed(sockets, rooms, room, id);
      rooms := LeaveRoom(rooms, room, id);
      sockets := sockets[id := sockets[id].(currentVoiceChannel := Null)];
    }

    /** "voice-channel-get-participants": answer the asker alone with the roster of
        the room.  The payload is destructured in the parameter list, outside the
        handler's `try`, so a missing payload throws out of the handler (`escaped`). */
    method GetParticipants(id: ConnId, query: Option<ParticipantsQuery>) returns (out: seq<Emission>, escaped: bool)
      ensures escaped <==> query.None?
      ensures query.None? ==> out == []
      ensures query.Some? ==>
        out == [Emission(id, Participants(query.value.channelId, Roster(Members(VoiceRoom(query.value.channelId)), sockets)))]
    {
      if query.None? {
        return [], true;
      }
      var channelId := query.value.channelId;
      var members := Members(VoiceRoom(channelId));
      var participants: seq<Participant> := [];
      var i := 0;
      while i < |members|
        invariant 0 <= i <= |members|
        invariant participants == Roster(members[..i], sockets)
      {
        var c := members[i];
        assert members[..i + 1][..i] == members[..i];
        if c in sockets && sockets[c].userId.Truthy() {
          participants := participants + [ToParticipant(sockets[c])];
        }
        i := i + 1;
      }
      assert members[..|members|] == members;
      out := [Emission(id, Participants(channelId, participants))];
      escaped := false;
    }

    /** "voice-channel-heartbeat": does nothing. */
    method Heartbeat(id: ConnId) returns (out: seq<Emission>)
      ensures out == []
    {
      out := [];
    }

    /** "chat-join": overwrite `socket.data.userId` and join the chat room. */
    method ChatJoin(id: ConnId, data: Option<ChatPayload>)
      requires Valid() && id in sockets
      modifies this
      ensures Valid()
      ensures data.None? ==> sockets == old(sockets) && rooms == old(rooms)
      ensures data.Some? ==>
        && sockets == old(sockets)[id := old(sockets[id]).(userId := data.value.userId)]
        && rooms == JoinRoom(old(rooms), ChatRoom(data.value.chatId), id)
    {
      if data.Some? {
        sockets := sockets[id := sockets[id].(userId := data.value.userId)];
        JoinKeepsWellFormed(sockets, rooms, ChatRoom(data.value.chatId), id);
        rooms := JoinRoom(rooms, ChatRoom(data.value.chatId), id);
      }
    }

    /** "chat-leave": leave the chat room; `socket.data` is left as it is. */
    method ChatLeave(id: ConnId, data: Option<ChatPayload>)
      requires Valid() && id in sockets
      modifies this
      ensures Valid()
      ensures sockets == old(sockets)
      ensures data.None? ==> rooms == old(rooms)
      ensures data.Some? ==> rooms == LeaveRoom(old(rooms), ChatRoom(data.value.chatId), id)
    {
      if data.Some? {
        LeaveKeepsWellFormed(sockets, rooms, ChatRoom(data.value.chatId), id);
        rooms := LeaveRoom(rooms, ChatRoom(data.value.chatId), id);
      }
    }

    /** "message-sent": relay the message to the chat room, the sender excluded. */
    method MessageSent(id: ConnId, data: Option<MessagePayload>) returns (out: seq<Emission>)
      ensures data.None? ==> out == []
      ensures data.Some? ==> out == BroadcastExcept(Members(ChatRoom(data.value.chatId)), id, MessageReceived(data.value.message))
      ensures id !in Recipients(out)
    {
      if data.None? {
        return [];
      }
      out := BroadcastExcept(Members(ChatRoom(data.value.chatId)), id, MessageReceived(data.value.message));
    }

    /** "message-updated": relay the edited message to the chat room, the sender excluded. */
    method MessageUpdated(id: ConnId, data: Option<MessagePayload>) returns (out: seq<Emission>)
      ensures data.None? ==> out == []
      ensures data.Some? ==> out == BroadcastExcept(Members(ChatRoom(data.value.chatId)), id, MessageChanged(data.value.message))
      ensures id !in Recipients(out)
    {
      if data.None? {
        return [];
      }
      out := BroadcastExcept(Members(ChatRoom(data.value.chatId)), id, MessageChanged(data.value.message));
    }

    /** "message-deleted": relay the deleted id to the chat room, the sender excluded. */
    method MessageDeleted(id: ConnId, data: Option<DeletionPayload>) returns (out: seq<Emission>)
      ensures data.None? ==> out == []
      ensures data.Some? ==> out == BroadcastExcept(Members(ChatRoom(data.value.chatId)), id, MessageRemoved(data.value.messageId))
      ensures id !in Recipients(out)
    {
      if data.None? {
        return [];
      }
      out := BroadcastExcept(Members(ChatRoom(data.value.chatId)), id, MessageRemoved(data.value.messageId));
    }

    /** "disconnect": socket.io has already taken the socket out of every room and
        out of the connection table; when `socket.data` still names a user and a
        voice channel, the remaining members of that room are told the user left. */
    method Disconnect(id: ConnId) returns (out: seq<Emission>)
      requires Valid() && id in sockets
      modifies this
      ensures Valid()
      ensures sockets == old(sockets) - {id}
      ensures rooms == LeaveAll(old(rooms), id)
      ensures var d := old(sockets[id]);
        out == if d.userId.Truthy() && d.currentVoiceChannel.Truthy()
          then Broadcast(Members(VoiceRoom(d.currentVoiceChannel)), UserLeft(d.userId, d.currentVoiceChannel))
          else []
      ensures id !in Recipients(out)
    {
      var d := sockets[id];
      CloseKeepsWellFormed(sockets, rooms, id);
      rooms := LeaveAll(rooms, id);
      sockets := sockets - {id};
      if d.userId.Truthy() && d.currentVoiceChannel.Truthy() {
        out := Broadcast(Members(VoiceRoom(d.currentVoiceChannel)), UserLeft(d.userId, d.currentVoiceChannel));
      } else {
        out := [];
      }
    }
  }
}

/** Runs of the dispatcher on concrete connections.  Each run is split into
    stages whose results pin down the state reached so far. */
module RealtimeScenarios {
  import opened Wrappers
  import opened Seqs
  import opened Realtime

  const V1 := VoiceRoom(Str("v1"))
  const V2 := VoiceRoom(Str("v2"))
  const C1 := ChatRoom(Str("c1"))

  const Ann := SocketData(Str("u1"), Str("Ann"), Str(""), Str("v1"))
  const Bob := SocketData(Str("u2"), Str("Bob"), Str("pic"), Str("v1"))

  /** Connections "a", "b" and "c" with empty `socket.data`, in no room. */
  method ThreeConnected() returns (io: Dispatcher)
    ensures fresh(io) && io.Valid()
    ensures io.sockets == map["a" := FreshData, "b" := FreshData, "c" := FreshData]
    ensures io.rooms == map[]
  {
    io := new Dispatcher();
    io.Connect("a");
    io.Connect("b");
    io.Connect("c");
  }

  /** The roster of A and B, whatever voice channel A is in now. */
  lemma AnnAndBobListed(sockets: map<ConnId, SocketData>)
    requires "a" in sockets && sockets["a"].(currentVoiceChannel := Str("v1")) == Ann
    requires "b" in sockets && sockets["b"] == Bob
    ensures Roster(["a", "b"], sockets) == [Participant(Str("u1"), Str("Ann"), Undefined), Participant(Str("u2"), Str("Bob"), Str("pic"))]
  {
    assert ["a", "b"][..1] == ["a"] && ["a"][..0] == [];
    assert Roster(["a"], sockets) == [Participant(Str("u1"), Str("Ann"), Undefined)];
  }

  /** A joins voice channel "v1" with an empty avatar and hears its own join. */
  method AnnJoinsVoice() returns (io: Dispatcher, joined: seq<Emission>)
    ensures fresh(io) && io.Valid()
    ensures io.sockets == map["a" := Ann, "b" := FreshData, "c" := FreshData]
    ensures io.rooms == map[V1 := ["a"]]
    ensures joined == [Emission("a", UserJoined(Str("u1"), Str("Ann"), Str(""), Str("v1")))]
  {
    io := ThreeConnected();
    joined := io.VoiceJoin("a", Some(VoiceJoinPayload(Str("v1"), Str("u1"), Str("Ann"), Str(""))));
    BroadcastSmall("a", "a", UserJoined(Str("u1"), Str("Ann"), Str(""), Str("v1")));
  }

  /** Then B joins "v1"; B's join is announced to both. */
  method TwoJoinVoice() returns (io: Dispatcher, joined: seq<Emission>)
    ensures fresh(io) && io.Valid()
    ensures io.sockets == map["a" := Ann, "b" := Bob, "c" := FreshData]
    ensures io.rooms == map[V1 := ["a", "b"]]
    ensures joined == [Emission("a", UserJoined(Str("u2"), Str("Bob"), Str("pic"), Str("v1"))),
                       Emission("b", UserJoined(Str("u2"), Str("Bob"), Str("pic"), Str("v1")))]
  {
    var first;
    io, first := AnnJoinsVoice();
    assert RoomAdd(["a"], "b") == ["a", "b"];
    joined := io.VoiceJoin("b", Some(VoiceJoinPayload(Str("v1"), Str("u2"), Str("Bob"), Str("pic"))));
    BroadcastSmall("a", "b", UserJoined(Str("u2"), Str("Bob"), Str("pic"), Str("v1")));
  }

  /** B asks for the participants of "v1" and is answered alone, with A and B in
      join order and A's empty avatar dropped. */
  method VoiceRoster() returns (roster: seq<Emission>)
    ensures roster == [Emission("b", Participants(Str("v1"),
                         [Participant(Str("u1"), Str("Ann"), Undefined), Participant(Str("u2"), Str("Bob"), Str("pic"))]))]
  {
    var io, joined := TwoJoinVoice();
    var escaped;
    roster, escaped := io.GetParticipants("b", Some(ParticipantsQuery(Str("v1"))));
    AnnAndBobListed(io.sockets);
  }

  /** A leaves "v1" and both A and B hear it; A's later disconnect announces nothing more. */
  method VoiceLeaveThenClose() returns (left: seq<Emission>, closed: seq<Emission>)
    ensures left == [Emission("a", UserLeft(Str("u1"), Str("v1"))), Emission("b", UserLeft(Str("u1"), Str("v1")))]
    ensures closed == []
  {
    var io, joined := TwoJoinVoice();
    left := io.VoiceLeave("a", Some(VoiceLeavePayload(Str("v1"), Str("u1"), Str("Ann"))));
    BroadcastSmall("a", "b", UserLeft(Str("u1"), Str("v1")));
    assert io.sockets["a"].currentVoiceChannel == Null;
    closed := io.Disconnect("a");
  }

  /** B closes its connection while in "v1": only A, still in the room, is told. */
  method VoiceClose() returns (closed: seq<Emission>)
    ensures closed == [Emission("a", UserLeft(Str("u2"), Str("v1")))]
  {
    var io, joined := TwoJoinVoice();
    closed := io.Disconnect("b");
    assert RoomRemove(["a", "b"], "b") == ["a"];
    assert io.Members(V1) == ["a"];
    BroadcastSmall("a", "a", UserLeft(Str("u2"), Str("v1")));
  }

  /** After A and B are in "v1", C joins "v2". */
  method ThirdJoinsOtherRoom() returns (io: Dispatcher)
    ensures fresh(io) && io.Valid()
    ensures io.sockets == map["a" := Ann, "b" := Bob, "c" := SocketData(Str("u3"), Str("Cy"), Undefined, Str("v2"))]
    ensures io.rooms == map[V1 := ["a", "b"], V2 := ["c"]]
  {
    var joined;
    io, joined := TwoJoinVoice();
    VoiceRoomNames(Str("v1"), Str("v2"));
    assert V1 != V2 && V2 !in io.rooms && RoomAdd([], "c") == ["c"];
    var e1 := io.VoiceJoin("c", Some(VoiceJoinPayload(Str("v2"), Str("u3"), Str("Cy"), Undefined)));
    assert io.rooms == map[V1 := ["a", "b"]][V2 := ["c"]];
  }

  /** Then A joins "v2" as well, without leaving "v1". */
  method SwitchWithoutLeave() returns (io: Dispatcher)
    ensures fresh(io) && io.Valid()
    ensures io.sockets == map["a" := Ann.(currentVoiceChannel := Str("v2")), "b" := Bob,
                              "c" := SocketData(Str("u3"), Str("Cy"), Undefined, Str("v2"))]
    ensures io.Members(V1) == ["a", "b"] && io.Members(V2) == ["c", "a"]
  {
    io := ThirdJoinsOtherRoom();
    VoiceRoomNames(Str("v1"), Str("v2"));
    assert V1 != V2 && RoomAdd(["c"], "a") == ["c", "a"];
    var e2 := io.VoiceJoin("a", Some(VoiceJoinPayload(Str("v2"), Str("u1"), Str("Ann"), Str(""))));
    assert io.rooms == map[V1 := ["a", "b"], V2 := ["c", "a"]];
  }

  /** Joining "v2" without leaving "v1" keeps A in "v1": the roster B reads for
      "v1" still lists A, and A's disconnect is announced to C in "v2" only, never
      to B in "v1". */
  method SecondJoinKeepsFirstRoom() returns (staleRoster: seq<Emission>, closed: seq<Emission>)
    ensures staleRoster == [Emission("b", Participants(Str("v1"),
                              [Participant(Str("u1"), Str("Ann"), Undefined), Participant(Str("u2"), Str("Bob"), Str("pic"))]))]
    ensures closed == [Emission("c", UserLeft(Str("u1"), Str("v2")))]
  {
    var io := SwitchWithoutLeave();
    var escaped;
    staleRoster, escaped := io.GetParticipants("b", Some(ParticipantsQuery(Str("v1"))));
    AnnAndBobListed(io.sockets);
    closed := io.Disconnect("a");
    assert RoomRemove(["c", "a"], "a") == ["c"];
    assert io.Members(V2) == ["c"];
    BroadcastSmall("c", "c", UserLeft(Str("u1"), Str("v2")));
  }

  /** A and B subscribe to chat "c1"; C is connected but does not. */
  method TwoJoinChat() returns (io: Dispatcher)
    ensures fresh(io) && io.Valid()
    ensures "a" in io.sockets && "b" in io.sockets && "c" in io.sockets
    ensures io.Members(C1) == ["a", "b"]
  {
    io := ThreeConnected();
    io.ChatJoin("a", Some(ChatPayload(Str("c1"), Str("u1"))));
    io.ChatJoin("b", Some(ChatPayload(Str("c1"), Str("u2"))));
  }

  /** What A sends reaches B only (never C); after B leaves, nobody hears A. */
  method ChatRelay(m: Messages.Message) returns (sent: seq<Emission>, afterLeave: seq<Emission>)
    ensures sent == [Emission("b", MessageReceived(m))]
    ensures afterLeave == []
  {
    var io := TwoJoinChat();
    sent := io.MessageSent("a", Some(MessagePayload(Str("c1"), m)));
    assert Filter(["a", "b"], c => c != "a") == ["b"];
    io.ChatLeave("b", Some(ChatPayload(Str("c1"), Str("u2"))));
    assert RoomRemove(["a", "b"], "b") == ["a"];
    afterLeave := io.MessageSent("a", Some(MessagePayload(Str("c1"), m)));
    assert Filter(["a"], c => c != "a") == [];
  }
}
