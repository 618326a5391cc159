/** src/app/api/servers/join/route.ts: `POST` joins the caller to the server with
    the given invite code, as a guest, unless they already belong to it. */
module ServerJoin {
  import opened Wrappers
  import opened Seqs
  import opened Text
  import opened Store

  /** The JSON body: `{ inviteCode }`. */
  datatype JoinBody = JoinBody(inviteCode: Option<string>)

  function HasCode(code: string): Server -> bool {
    (s: Server) => s.inviteCode == code
  }

  function Membership(serverId: string, userId: string): Member -> bool {
    (m: Member) => m.serverId == serverId && m.userId == userId
  }

  /** The JSON answer.  The already-member path returns the server as found, with
      the `members` include (the caller's memberships of that server); the
      new-member path returns the bare row of `db.server.update`, which has no
      `members` field. */
  datatype JoinAnswer = JoinAnswer(server: Server, members: Option<seq<Member>>)

  /** How many memberships join the user to the server. */
  function MembershipCount(t: Tables, serverId: string, userId: string): nat {
    |Filter(t.members, Membership(serverId, userId))|
  }

  /** `POST`: the body is read first, then the profile, the invite code, and the
      server the code names.  A user already in that server gets it back, with
      their memberships of it, and nothing written; anyone else gets one new
      GUEST membership and the bare server row. */
  function Join(t: Tables, failing: bool, profile: Option<User>, body: Body<JoinBody>, newId: string): (s: Step<JoinAnswer>)
    ensures body.None? ==> s == Step(t, Text(500, "Internal Error"))
    ensures body.Some? && profile.None? ==> s == Step(t, Text(401, "Unauthorized"))
    ensures body.Some? && profile.Some? && !Truthy(body.value.inviteCode) ==> s == Step(t, Text(400, "Invite code missing"))
    ensures s.res.Text? ==> s.t == t
    ensures s.res == Text(404, "Invalid invite code") <==>
      body.Some? && profile.Some? && Truthy(body.value.inviteCode) && !failing
      && forall x | x in t.servers :: x.inviteCode != body.value.inviteCode.value
    ensures s.res.Json? ==>
      && profile.Some? && body.Some? && Truthy(body.value.inviteCode) && !failing
      && s.res.value.server in t.servers && s.res.value.server.inviteCode == body.value.inviteCode.value
    ensures s.res.Json? ==> var server := s.res.value.server; var before := MembershipCount(t, server.id, profile.value.id);
      && MembershipCount(s.t, server.id, profile.value.id) == (if before == 0 then 1 else before)
      && (before > 0 ==> s.t == t && s.res.value.members == Some(Filter(t.members, Membership(server.id, profile.value.id))))
      && (before == 0 ==> s.t == t.(members := t.members + [Member(newId, profile.value.id, server.id, GUEST)])
                          && s.res.value.members.None?)
  {
    if body.None? then Step(t, Text(500, "Internal Error"))
    else if profile.None? then Step(t, Text(401, "Unauthorized"))
    else if !Truthy(body.value.inviteCode) then Step(t, Text(400, "Invite code missing"))
    else if failing then Step(t, Text(500, "Internal Error"))
    else match FindFirst(t.servers, HasCode(body.value.inviteCode.value))
      case None => Step(t, Text(404, "Invalid invite code"))
      case Some(server) =>
        var mine := Filter(t.members, Membership(server.id, profile.value.id));
        if |mine| > 0 then Step(t, Json(JoinAnswer(server, Some(mine))))
        else
          var m := Member(newId, profile.value.id, server.id, GUEST);
          FilterAppend(t.members, m, Membership(server.id, profile.value.id));
          Step(t.(members := t.members + [m]), Json(JoinAnswer(server, None)))
  }

  /** The handler, one store call at a time. */
  method Post(db: Database, profile: Option<User>, body: Body<JoinBody>, newId: string) returns (res: Response<JoinAnswer>)
    modifies db
    ensures Step(db.t, res) == Join(old(db.t), old(db.failing), profile, body, newId)
    ensures db.failing == old(db.failing)
  {
    if body.None? {
      return Text(500, "Internal Error");
    }
    if profile.None? {
      return Text(401, "Unauthorized");
    }
    if !Truthy(body.value.inviteCode) {
      return Text(400, "Invite code missing");
    }
    if db.failing {
      return Text(500, "Internal Error");
    }
    var existing := FindFirst(db.t.servers, HasCode(body.value.inviteCode.value));
    if existing.None? {
      return Text(404, "Invalid invite code");
    }
    var server := existing.value;
    var mine := Filter(db.t.members, Membership(server.id, profile.value.id));
    if |mine| > 0 {
      return Json(JoinAnswer(server, Some(mine)));
    }
    var m := Member(newId, profile.value.id, server.id, GUEST);
    FilterAppend(db.t.members, m, Membership(server.id, profile.value.id));
    db.t := db.t.(members := db.t.members + [m]);
    res := Json(JoinAnswer(server, None));
  }

  /** Joining a second time with the same code writes nothing and answers the same
      server row, now with the caller's one membership included; a user who was
      not a member ends with exactly one membership. */
  lemma JoinTwice(t: Tables, profile: User, body: JoinBody, n1: string, n2: string)
    requires Join(t, false, Some(profile), Some(body), n1).res.Json?
    ensures var s1 := Join(t, false, Some(profile), Some(body), n1);
      var server := s1.res.value.server;
      var s2 := Join(s1.t, false, Some(profile), Some(body), n2);
      && s2.t == s1.t
      && s2.res.Json? && s2.res.value.server == server
      && s2.res.value.members == Some(Filter(s1.t.members, Membership(server.id, profile.id)))
      && (MembershipCount(t, server.id, profile.id) == 0 ==> MembershipCount(s1.t, server.id, profile.id) == 1)
  {
    var s1 := Join(t, false, Some(profile), Some(body), n1);
    assert s1.t.servers == t.servers;
  }
}
