/** src/components/modals/server-settings-modal.tsx: the server settings dialog.
    The roles tab derives one card per role from the member list; the settings
    form is a record of named values; the fetch handlers replace parts of the
    state only on OK responses. */
module ServerSettingsModal {
  import opened Wrappers
  import opened Seqs
  import opened Text
  import opened Store

  datatype SettingsMember = SettingsMember(id: string, userId: string, name: string, role: Role)

  /** One entry of `roles` (lines 96-118). */
  datatype RoleCard = RoleCard(id: Role, name: string, color: string, permissions: seq<string>, memberCount: nat)

  function HasRole(role: Role): SettingsMember -> bool {
    (m: SettingsMember) => m.role == role
  }

  /** `members.filter(m => m.role === role).length`. */
  function CountOf(members: seq<SettingsMember>, role: Role): nat {
    |Filter(members, HasRole(role))|
  }

  const AdminPermissions: seq<string> := ["MANAGE_SERVER", "MANAGE_CHANNELS", "MANAGE_MEMBERS", "KICK_MEMBERS", "MANAGE_MESSAGES"]
  const ModeratorPermissions: seq<string> := ["MANAGE_MESSAGES", "KICK_MEMBERS"]
  const GuestPermissions: seq<string> := ["SEND_MESSAGES", "READ_MESSAGES"]

  /** The three role cards, in the order admin, moderator, member. */
  function Roles(members: seq<SettingsMember>): (r: seq<RoleCard>)
    ensures |r| == 3
    ensures r[0].id == ADMIN && r[1].id == MODERATOR && r[2].id == GUEST
    ensures forall k | 0 <= k < 3 :: r[k].memberCount == CountOf(members, r[k].id)
  {
    [RoleCard(ADMIN, "Admin", "#ff6b6b", AdminPermissions, CountOf(members, ADMIN)),
     RoleCard(MODERATOR, "Moderator", "#4ecdc4", ModeratorPermissions, CountOf(members, MODERATOR)),
     RoleCard(GUEST, "Member", "#95a5a6", GuestPermissions, CountOf(members, GUEST))]
  }

  /** The three counts add up to the number of members. */
  lemma {:induction false} RoleCountsSum(members: seq<SettingsMember>)
    ensures var r := Roles(members); r[0].memberCount + r[1].memberCount + r[2].memberCount == |members|
    decreases |members|
  {
    if |members| > 0 {
      RoleCountsSum(members[1..]);
    }
  }

  /** `getCurrentUserRole`: the role of the first admin, or "GUEST"; that is,
      ADMIN exactly when some member is an admin. */
  function CurrentUserRole(members: seq<SettingsMember>): (r: Role)
    ensures r == ADMIN <==> exists m | m in members :: m.role == ADMIN
    ensures r == ADMIN || r == GUEST
  {
    match FindFirst(members, HasRole(ADMIN))
    case Some(m) => m.role
    case None => GUEST
  }

  /** `canManageRoles`: the current role is ADMIN and the target role is not. */
  function CanManageRoles(members: seq<SettingsMember>, memberRole: Role): (b: bool)
    ensures b <==> (exists m | m in members :: m.role == ADMIN) && memberRole != ADMIN
  {
    if CurrentUserRole(members) != ADMIN then false
    else if memberRole == ADMIN then false
    else true
  }

  /** `permission.replace(/_/g, ' ').toLowerCase()`. */
  function PermissionLabel(p: string): (r: string)
    ensures |r| == |p|
    ensures forall k | 0 <= k < |p| :: r[k] == if p[k] == '_' then ' ' else LowerChar(p[k])
    ensures '_' !in r
  {
    var spaced := ReplaceChar(p, '_', ' ');
    var r := ToLower(spaced);
    assert forall k | 0 <= k < |p| :: r[k] == LowerChar(spaced[k]);
    r
  }

  /** The chips of one card: the first four permissions' labels, and the
      "+n more" line when there are more than four. */
  function PermissionChips(permissions: seq<string>): (r: (seq<string>, Option<string>))
    ensures |r.0| == if |permissions| < 4 then |permissions| else 4
    ensures forall k | 0 <= k < |r.0| :: r.0[k] == PermissionLabel(permissions[k])
    ensures r.1.Some? <==> |permissions| > 4
    ensures r.1.Some? ==> r.1.value == "+" + NatToString(|permissions| - 4) + " more"
  {
    var shown := if |permissions| <= 4 then permissions else permissions[..4];
    (seq(|shown|, k requires 0 <= k < |shown| => PermissionLabel(shown[k])),
     if |permissions| > 4 then Some("+" + NatToString(|permissions| - 4) + " more") else None)
  }

  /** `memberCount === 1 ? 'member' : 'members'`. */
  function MemberWord(count: nat): (r: string)
    ensures r == "member" <==> count == 1
    ensures r == "members" <==> count != 1
  {
    if count == 1 then "member" else "members"
  }

  /** The form's initial record (lines 55-61). */
  function InitialSettings(serverName: Option<string>): (s: map<string, SettingValue>)
    ensures s.Keys == {"name", "description", "isPublic", "allowInvites", "inviteCode"}
    ensures s["name"] == SText(OrElse(serverName, ""))
    ensures s["isPublic"] == SFlag(false) && s["allowInvites"] == SFlag(true)
    ensures s["description"] == SText("") && s["inviteCode"] == SText("")
  {
    map["name" := SText(OrElse(serverName, "")), "description" := SText(""), "isPublic" := SFlag(false),
        "allowInvites" := SFlag(true), "inviteCode" := SText("")]
  }

  /** Line 90: the data is fetched when the dialog is open as the server
      settings dialog and a server id is known. */
  predicate FetchesOnOpen(isOpen: bool, isServerSettings: bool, serverId: Option<string>) {
    isOpen && isServerSettings && Truthy(serverId)
  }

  /** The dialog's state. */
  class SettingsDialog {
    var settings: map<string, SettingValue>
    var members: seq<SettingsMember>

    constructor (serverName: Option<string>)
      ensures settings == InitialSettings(serverName) && members == []
    {
      settings := InitialSettings(serverName);
      members := [];
    }

    /** `handleSettingChange`: only the named key takes the new value. */
    method HandleSettingChange(key: string, value: SettingValue)
      modifies this
      ensures settings.Keys == old(settings.Keys) + {key}
      ensures settings[key] == value
      ensures forall k | k in old(settings) && k != key :: settings[k] == old(settings)[k]
      ensures members == old(members)
    {
      settings := settings[key := value];
    }

    /** `fetchServerData` (lines 66-88), run only when the dialog is open on a
        server (`FetchesOnOpen`): an OK server response sets the name and invite code, an OK
        members response replaces the members, and a throw from the first request
        skips the second. */
    method FetchServerData(isOpen: bool, isServerSettings: bool, serverId: Option<string>, server: Fetch<(string, string)>, memberList: Fetch<seq<SettingsMember>>)
      modifies this
      ensures var active := FetchesOnOpen(isOpen, isServerSettings, serverId);
        !active ==> settings == old(settings) && members == old(members)
      ensures var active := FetchesOnOpen(isOpen, isServerSettings, serverId);
        active && server.Ok? ==>
        settings == old(settings)["name" := SText(server.value.0)]["inviteCode" := SText(server.value.1)]
      ensures var active := FetchesOnOpen(isOpen, isServerSettings, serverId);
        active && !server.Ok? ==> settings == old(settings)
      ensures var active := FetchesOnOpen(isOpen, isServerSettings, serverId);
        members == (if active && !server.Threw? && memberList.Ok? then memberList.value else old(members))
    {
      if !FetchesOnOpen(isOpen, isServerSettings, serverId) {
        return;
      }
      if server.Threw? {
        return;
      }
      if server.Ok? {
        settings := settings["name" := SText(server.value.0)]["inviteCode" := SText(server.value.1)];
      }
      if memberList.Ok? {
        members := memberList.value;
      }
    }

    /** `generateNewInviteCode`: an OK response replaces only the invite code. */
    method GenerateNewInviteCode(response: Fetch<string>)
      modifies this
      ensures settings == (if response.Ok? then old(settings)["inviteCode" := SText(response.value)] else old(settings))
      ensures members == old(members)
    {
      if response.Ok? {
        settings := settings["inviteCode" := SText(response.value)];
      }
    }

    /** `handleRoleChange` and `handleKickMember`: after an OK change the list is
        refetched, and only an OK refetch replaces it. */
    method RefreshAfterChange(change: Fetch<()>, refresh: Fetch<seq<SettingsMember>>)
      modifies this
      ensures members == (if change.Ok? && refresh.Ok? then refresh.value else old(members))
      ensures settings == old(settings)
    {
      if change.Ok? && refresh.Ok? {
        members := refresh.value;
      }
    }
  }
}
