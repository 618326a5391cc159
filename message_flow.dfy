/** A message posted over HTTP reaches the chat room through the socket bridge:
    the route handler of src/app/api/socket/messages/route.ts, the bridge of
    src/lib/socket-emit.ts and the room table of server.js together. */
module MessageFlow {
  import opened Wrappers
  import opened Messages
  import opened Store
  import opened Realtime
  import opened MessageRoute

  const Owner := User("u1", "clerk-1", "Ann", "ann@example.com", None)
  const Home := Server("s1", "Home", "invite-1", None)
  const General := Channel("c1", Some("chat"), Some(TEXT), "s1", "u1")
  const Posted := Message("m1", "hi", None, "c1", "u1")

  /** Connection "a" has joined chat "c1"; "b" is connected but in no room. */
  method Subscribed() returns (io: Dispatcher)
    ensures fresh(io) && io.Valid()
    ensures io.Members(ChatRoom(Str("c1"))) == ["a"]
  {
    io := new Dispatcher();
    io.Connect("a");
    io.Connect("b");
    io.ChatJoin("a", Some(ChatPayload(Str("c1"), Str("u1"))));
    assert RoomAdd([], "a") == ["a"];
  }

  /** A member of the server posts to the channel: the message is stored and the
      subscriber "a" alone receives it, the poster's own HTTP request not being one
      of the room's connections. */
  method PostReachesSubscriber() returns (res: Response<Message>, out: seq<Emission>, stored: seq<Message>)
    ensures res == Json(Posted)
    ensures out == [Emission("a", MessageReceived(Posted))]
    ensures stored == [Posted]
  {
    var io := Subscribed();
    var db := new Database(Tables([Owner], [Home], [Member("m0", "u1", "s1", ADMIN)], [General], [], [], [], []), false);
    assert db.t.members[0] in db.t.members && db.t.servers[0] in db.t.servers;
    assert MemberOfServer(db.t, "s1", "u1");
    assert db.t.channels[0] in db.t.channels;
    res, out := Post(db, io, Some(Owner), Some(MessageBody(Some("hi"), None)), Some("s1"), Some("c1"), "m1");
    stored := db.t.messages;
  }

  /** Someone outside the server is refused with 404, and nothing is stored or sent. */
  method OutsiderIsRefused() returns (res: Response<Message>, out: seq<Emission>, stored: seq<Message>)
    ensures res == Text(404, "Server not found")
    ensures out == [] && stored == []
  {
    var io := Subscribed();
    var db := new Database(Tables([Owner], [Home], [Member("m0", "u1", "s1", ADMIN)], [General], [], [], [], []), false);
    var stranger := User("u9", "clerk-9", "Eve", "eve@example.com", None);
    res, out := Post(db, io, Some(stranger), Some(MessageBody(Some("hi"), None)), Some("s1"), Some("c1"), "m2");
    stored := db.t.messages;
  }
}
