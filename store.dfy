/** The database the route handlers of src/app/api read and write, as plain tables
    of records (the Prisma models the handlers touch).  A table is a sequence in
    storage order, which is the order `findFirst` and `findMany` without
    `orderBy` see.  `failing` stands for a store that throws on every call. */
module Store {
  import opened Wrappers
  import opened Messages

  datatype Role = ADMIN | MODERATOR | GUEST
  datatype ChannelType = TEXT | VOICE | VIDEO
  datatype RequestStatus = PENDING | ACCEPTED | DECLINED

  datatype User = User(id: string, clerkId: string, name: string, email: string, avatar: Option<string>)
  datatype Server = Server(id: string, name: string, inviteCode: string, avatar: Option<string>)
  datatype Member = Member(id: string, userId: string, serverId: string, role: Role)
  /** A channel row as the channel route writes it: name and type as the request gave them. */
  datatype Channel = Channel(id: string, name: Option<string>, channelType: Option<ChannelType>, serverId: string, createdById: string)
  datatype FriendRequest = FriendRequest(id: string, fromUserId: string, toUserId: string, status: RequestStatus, createdAt: int)
  datatype Friendship = Friendship(id: string, userAId: string, userBId: string, createdAt: int)
  datatype VoiceParticipant = VoiceParticipant(id: string, userId: string, channelId: string, lastSeen: int)

  datatype Tables = Tables(
    users: seq<User>,
    servers: seq<Server>,
    members: seq<Member>,
    channels: seq<Channel>,
    messages: seq<Message>,
    requests: seq<FriendRequest>,
    friendships: seq<Friendship>,
    participants: seq<VoiceParticipant>)

  /** What a handler answers: `NextResponse.json(value)` (status 200) or a
      `NextResponse` with a status and a text body. */
  datatype Response<T> = Json(value: T) | Text(status: nat, text: string)

  /** A handler's effect: the tables afterwards and the response. */
  datatype Step<T> = Step(t: Tables, res: Response<T>)

  /** A request body: `None` when `req.json()` throws (no body, malformed JSON, or
      a JSON `null` that cannot be destructured). */
  type Body<T> = Option<T>

  /** A JSON value as `req.json()` yields it (numbers as integers). */
  datatype JsonValue = JNull | JBool(b: bool) | JNumber(n: int) | JString(s: string) | JArray | JObject

  /** `db`: the tables, and whether the store is down. */
  class Database {
    var t: Tables
    var failing: bool

    constructor (t0: Tables, failing0: bool)
      ensures t == t0 && failing == failing0
    {
      t := t0;
      failing := failing0;
    }
  }
}
