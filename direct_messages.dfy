/** src/app/api/direct-messages/route.ts: `POST` finds the user to talk to by name
    and answers with a conversation object built on the spot (nothing is stored);
    `GET` answers an empty list. */
module DirectMessages {
  import opened Wrappers
  import opened Seqs
  import opened Messages
  import opened Text
  import opened Store

  /** The JSON body: `{ username }`. */
  datatype DmBody = DmBody(username: Option<string>)

  /** The answer of `POST`; `lastMessage` is JSON `null` as `None`. */
  datatype Conversation = Conversation(id: string, kind: string, user: User, lastMessage: Option<Message>, isOnline: bool)

  /** `name: { contains: username }`. */
  function NameContains(sub: string): User -> bool {
    (u: User) => Contains(u.name, sub)
  }

  /** `` `dm-${profile.id}-${targetUser.id}` ``. */
  function ConversationId(me: string, other: string): string {
    "dm-" + me + "-" + other
  }

  /** User `i` is the first whose name contains `sub`. */
  predicate FirstNamed(users: seq<User>, sub: string, i: int) {
    0 <= i < |users| && Contains(users[i].name, sub) && forall k | 0 <= k < i :: !Contains(users[k].name, sub)
  }

  /** `POST`: the body is read before the profile is checked; the target is the
      first user whose name contains the text, and it may not be the caller. */
  function Start(t: Tables, failing: bool, profile: Option<User>, body: Body<DmBody>): (r: Response<Conversation>)
    ensures body.None? ==> r == Text(500, "Internal Error")
    ensures body.Some? && profile.None? ==> r == Text(401, "Unauthorized")
    ensures body.Some? && profile.Some? && !Truthy(body.value.username) ==> r == Text(400, "Username missing")
    ensures r == Text(404, "User not found") <==>
      body.Some? && profile.Some? && Truthy(body.value.username) && !failing
      && forall u | u in t.users :: !Contains(u.name, body.value.username.value)
    ensures body.Some? && profile.Some? && Truthy(body.value.username) && failing ==> r == Text(500, "Internal Error")
    ensures forall i | body.Some? && profile.Some? && Truthy(body.value.username) && !failing
                       && FirstNamed(t.users, body.value.username.value, i) ::
      r == if t.users[i].id == profile.value.id then Text(400, "Cannot message yourself")
           else Json(Conversation(ConversationId(profile.value.id, t.users[i].id), "DM", t.users[i], None, false))
    ensures r.Json? ==>
      && body.Some? && profile.Some? && Truthy(body.value.username) && !failing
      && Contains(r.value.user.name, body.value.username.value)
      && (exists i | 0 <= i < |t.users| :: t.users[i] == r.value.user &&
            forall k | 0 <= k < i :: !Contains(t.users[k].name, body.value.username.value))
      && r.value.user.id != profile.value.id
      && r.value.id == ConversationId(profile.value.id, r.value.user.id)
      && r.value.kind == "DM" && r.value.lastMessage.None? && !r.value.isOnline
  {
    if body.None? then Text(500, "Internal Error")
    else if profile.None? then Text(401, "Unauthorized")
    else if !Truthy(body.value.username) then Text(400, "Username missing")
    else if failing then Text(500, "Internal Error")
    else match FindFirst(t.users, NameContains(body.value.username.value))
      case None => Text(404, "User not found")
      case Some(target) =>
        assert forall i | FirstNamed(t.users, body.value.username.value, i) :: t.users[i] == target by {
          forall i | FirstNamed(t.users, body.value.username.value, i) ensures t.users[i] == target {
            var j :| 0 <= j < |t.users| && t.users[j] == target
                     && forall k | 0 <= k < j :: !NameContains(body.value.username.value)(t.users[k]);
            assert !(j < i) && !(i < j);
          }
        }
        if target.id == profile.value.id then Text(400, "Cannot message yourself")
        else Json(Conversation(ConversationId(profile.value.id, target.id), "DM", target, None, false))
  }

  /** For one caller, different targets give different conversation ids. */
  lemma ConversationIdInjective(me: string, x: string, y: string)
    requires ConversationId(me, x) == ConversationId(me, y)
    ensures x == y
  {
    var prefix := "dm-" + me + "-";
    assert ConversationId(me, x) == prefix + x && ConversationId(me, y) == prefix + y;
    assert (prefix + x)[|prefix|..] == x;
    assert (prefix + y)[|prefix|..] == y;
  }

  /** The id depends on who starts the conversation, and since ids may contain
      `-` two different pairs of users can even share one. */
  lemma ConversationIdNotSymmetric()
    ensures ConversationId("a", "b") != ConversationId("b", "a")
    ensures ConversationId("x", "x-x") == ConversationId("x-x", "x")
  {
    assert ConversationId("a", "b")[3] == 'a';
  }

  /** `GET`: an empty list for a signed-in caller. */
  function List(profile: Option<User>): (r: Response<seq<Conversation>>)
    ensures profile.None? <==> r == Text(401, "Unauthorized")
    ensures profile.Some? <==> r == Json([])
  {
    if profile.None? then Text(401, "Unauthorized") else Json([])
  }
}
