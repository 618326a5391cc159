/** src/app/api/channels/route.ts: `POST` creates a channel in a server, for an
    administrator or moderator of that server.  `serverId` is the query
    parameter. */
module ChannelRoute {
  import opened Wrappers
  import opened Text
  import opened Store

  /** The JSON body: `{ name, type }`, passed on to the store as given. */
  datatype ChannelBody = ChannelBody(name: Option<string>, channelType: Option<ChannelType>)

  predicate Manages(m: Member) {
    m.role == ADMIN || m.role == MODERATOR
  }

  /** The server exists and the user is an ADMIN or MODERATOR member of it (lines 27-39). */
  predicate CanManage(t: Tables, serverId: string, userId: string) {
    exists s | s in t.servers :: s.id == serverId &&
      exists m | m in t.members :: m.serverId == s.id && m.userId == userId && Manages(m)
  }

  /** Everything creation needs. */
  predicate Allowed(t: Tables, failing: bool, profile: Option<User>, body: Body<ChannelBody>, serverId: Option<string>) {
    && body.Some? && profile.Some? && Truthy(serverId) && body.value.name != Some("general")
    && !failing && CanManage(t, serverId.value, profile.value.id)
  }

  /** `POST`: the body is read before the profile is checked; then the server id,
      the reserved name (exactly "general"), and the caller's role.  Success
      appends one channel with the given name and type, in that server, created by
      the caller. */
  function Create(t: Tables, failing: bool, profile: Option<User>, body: Body<ChannelBody>,
                  serverId: Option<string>, newId: string): (s: Step<Channel>)
    ensures body.None? ==> s == Step(t, Text(500, "Internal Error"))
    ensures body.Some? && profile.None? ==> s == Step(t, Text(401, "Unauthorized"))
    ensures body.Some? && profile.Some? && !Truthy(serverId) ==> s == Step(t, Text(400, "Server ID missing"))
    ensures s.res == Text(400, "Name cannot be 'general'") <==>
      body.Some? && profile.Some? && Truthy(serverId) && body.value.name == Some("general")
    ensures s.res == Text(403, "Forbidden") <==>
      && body.Some? && profile.Some? && Truthy(serverId) && body.value.name != Some("general") && !failing
      && !CanManage(t, serverId.value, profile.value.id)
    ensures s.res.Json? <==> Allowed(t, failing, profile, body, serverId)
    ensures s.res.Text? ==> s.t == t
    ensures s.res.Json? ==>
      && s.res.value == Channel(newId, body.value.name, body.value.channelType, serverId.value, profile.value.id)
      && s.t == t.(channels := t.channels + [s.res.value])
  {
    if body.None? then Step(t, Text(500, "Internal Error"))
    else if profile.None? then Step(t, Text(401, "Unauthorized"))
    else if !Truthy(serverId) then Step(t, Text(400, "Server ID missing"))
    else if body.value.name == Some("general") then Step(t, Text(400, "Name cannot be 'general'"))
    else if failing then Step(t, Text(500, "Internal Error"))
    else if !CanManage(t, serverId.value, profile.value.id) then Step(t, Text(403, "Forbidden"))
    else
      var channel := Channel(newId, body.value.name, body.value.channelType, serverId.value, profile.value.id);
      Step(t.(channels := t.channels + [channel]), Json(channel))
  }

  /** The handler, one store call at a time. */
  method Post(db: Database, profile: Option<User>, body: Body<ChannelBody>, serverId: Option<string>, newId: string)
    returns (res: Response<Channel>)
    modifies db
    ensures Step(db.t, res) == Create(old(db.t), old(db.failing), profile, body, serverId, newId)
    ensures db.failing == old(db.failing)
  {
    if body.None? {
      return Text(500, "Internal Error");
    }
    if profile.None? {
      return Text(401, "Unauthorized");
    }
    if !Truthy(serverId) {
      return Text(400, "Server ID missing");
    }
    if body.value.name == Some("general") {
      return Text(400, "Name cannot be 'general'");
    }
    if db.failing {
      return Text(500, "Internal Error");
    }
    if !CanManage(db.t, serverId.value, profile.value.id) {
      return Text(403, "Forbidden");
    }
    var channel := Channel(newId, body.value.name, body.value.channelType, serverId.value, profile.value.id);
    db.t := db.t.(channels := db.t.channels + [channel]);
    res := Json(channel);
  }

  /** A caller whose every membership of the server is GUEST (or who has none) is
      refused, whatever the name. */
  lemma GuestsAreForbidden(t: Tables, profile: User, body: ChannelBody, serverId: string, newId: string)
    requires serverId != "" && body.name != Some("general")
    requires forall m | m in t.members && m.serverId == serverId && m.userId == profile.id :: m.role == GUEST
    ensures Create(t, false, Some(profile), Some(body), Some(serverId), newId) == Step(t, Text(403, "Forbidden"))
  {
  }
}
