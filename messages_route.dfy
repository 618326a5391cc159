/** src/app/api/socket/messages/route.ts: `POST` validates the request, creates a
    message in a channel of a server the caller belongs to, and publishes it to
    the channel's chat room through the socket bridge. */
module MessageRoute {
  import opened Wrappers
  import opened Text
  import opened Messages
  import opened Store
  import opened Realtime
  import opened SocketEmit

  /** The JSON body: `{ content, fileUrl }`. */
  datatype MessageBody = MessageBody(content: Option<string>, fileUrl: Option<string>)

  /** Some server has the id and a member with the user's id (the lookup of lines 31-43). */
  predicate MemberOfServer(t: Tables, serverId: string, userId: string) {
    exists s | s in t.servers :: s.id == serverId &&
      exists m | m in t.members :: m.serverId == s.id && m.userId == userId
  }

  /** Some channel has the id and belongs to the server (lines 49-54). */
  predicate ChannelInServer(t: Tables, channelId: string, serverId: string) {
    exists c | c in t.channels :: c.id == channelId && c.serverId == serverId
  }

  /** A readable body, a caller, and the three fields the route insists on. */
  predicate WellFormed(profile: Option<User>, body: Body<MessageBody>, serverId: Option<string>, channelId: Option<string>) {
    body.Some? && profile.Some? && Truthy(serverId) && Truthy(channelId) && Truthy(body.value.content)
  }

  /** Everything a successful post needs. */
  predicate Accepted(t: Tables, failing: bool, profile: Option<User>, body: Body<MessageBody>,
                     serverId: Option<string>, channelId: Option<string>)
  {
    && WellFormed(profile, body, serverId, channelId)
    && !failing
    && MemberOfServer(t, serverId.value, profile.value.id)
    && ChannelInServer(t, channelId.value, serverId.value)
  }

  /** The early answer of the check ladder, if the request stops before the write:
      an unreadable body first, then no profile, then missing serverId, channelId
      and content, then the store, then the two lookups. */
  function Rejection(t: Tables, failing: bool, profile: Option<User>, body: Body<MessageBody>,
                     serverId: Option<string>, channelId: Option<string>): (r: Option<Response<Message>>)
    ensures r.None? <==> Accepted(t, failing, profile, body, serverId, channelId)
    ensures r.Some? ==> r.value.Text? && r.value.status in {400, 401, 404, 500}
    ensures body.None? ==> r == Some(Text(500, "Internal Error"))
    ensures body.Some? && profile.None? ==> r == Some(Text(401, "Unauthorized"))
    ensures body.Some? && profile.Some? && !Truthy(serverId) ==> r == Some(Text(400, "Server ID missing"))
    ensures body.Some? && profile.Some? && Truthy(serverId) && !Truthy(channelId) ==>
      r == Some(Text(400, "Channel ID missing"))
    ensures body.Some? && profile.Some? && Truthy(serverId) && Truthy(channelId) && !Truthy(body.value.content) ==>
      r == Some(Text(400, "Content missing"))
    ensures WellFormed(profile, body, serverId, channelId) && failing ==> r == Some(Text(500, "Internal Error"))
    ensures WellFormed(profile, body, serverId, channelId) && !failing && !MemberOfServer(t, serverId.value, profile.value.id) ==>
      r == Some(Text(404, "Server not found"))
    ensures WellFormed(profile, body, serverId, channelId) && !failing && MemberOfServer(t, serverId.value, profile.value.id)
            && !ChannelInServer(t, channelId.value, serverId.value) ==>
      r == Some(Text(404, "Channel not found"))
    ensures r.Some? && r.value.status == 400 ==> body.Some? && profile.Some? && !WellFormed(profile, body, serverId, channelId)
    ensures r.Some? && r.value.status == 404 ==>
      && WellFormed(profile, body, serverId, channelId) && !failing
      && (!MemberOfServer(t, serverId.value, profile.value.id) || !ChannelInServer(t, channelId.value, serverId.value))
  {
    if body.None? then Some(Text(500, "Internal Error"))
    else if profile.None? then Some(Text(401, "Unauthorized"))
    else if !Truthy(serverId) then Some(Text(400, "Server ID missing"))
    else if !Truthy(channelId) then Some(Text(400, "Channel ID missing"))
    else if !Truthy(body.value.content) then Some(Text(400, "Content missing"))
    else if failing then Some(Text(500, "Internal Error"))
    else if !MemberOfServer(t, serverId.value, profile.value.id) then Some(Text(404, "Server not found"))
    else if !ChannelInServer(t, channelId.value, serverId.value) then Some(Text(404, "Channel not found"))
    else None
  }

  /** `POST`.  A rejected request writes nothing and publishes nothing; an accepted
      one appends exactly one message, owned by the caller and placed in the given
      channel, publishes it once to `chat:<channelId>`, and returns it.  The
      member check of lines 60-64 cannot fail once the server lookup has
      succeeded, so it has no branch here. */
  method Post(db: Database, io: Dispatcher?, profile: Option<User>, body: Body<MessageBody>,
              serverId: Option<string>, channelId: Option<string>, newId: string)
    returns (res: Response<Message>, out: seq<Emission>)
    modifies db
    ensures db.failing == old(db.failing)
    ensures var rejected := Rejection(old(db.t), old(db.failing), profile, body, serverId, channelId);
      rejected.Some? ==> res == rejected.value && db.t == old(db.t) && out == []
    ensures Accepted(old(db.t), old(db.failing), profile, body, serverId, channelId) ==>
      var m := Message(newId, body.value.content.value, body.value.fileUrl, channelId.value, profile.value.id);
      && res == Json(m)
      && db.t == old(db.t).(messages := old(db.t.messages) + [m])
      && out == (if io == null then [] else Broadcast(io.Members(ChatRoom(Str(channelId.value))), MessageReceived(m)))
  {
    if body.None? {
      return Text(500, "Internal Error"), [];
    }
    if profile.None? {
      return Text(401, "Unauthorized"), [];
    }
    if !Truthy(serverId) {
      return Text(400, "Server ID missing"), [];
    }
    if !Truthy(channelId) {
      return Text(400, "Channel ID missing"), [];
    }
    if !Truthy(body.value.content) {
      return Text(400, "Content missing"), [];
    }
    if db.failing {
      return Text(500, "Internal Error"), [];
    }
    if !MemberOfServer(db.t, serverId.value, profile.value.id) {
      return Text(404, "Server not found"), [];
    }
    if !ChannelInServer(db.t, channelId.value, serverId.value) {
      return Text(404, "Channel not found"), [];
    }
    var message := Message(newId, body.value.content.value, body.value.fileUrl, channelId.value, profile.value.id);
    db.t := db.t.(messages := db.t.messages + [message]);
    out := EmitNewMessage(io, channelId.value, message);
    res := Json(message);
  }
}
