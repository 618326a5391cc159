/** src/components/channel-member-sidebar.tsx: the members panel beside a channel.
    It loads the server's members, refetches them when the socket reports a
    change to this server, groups them by role and shows the groups in a fixed
    order. */
module ChannelMemberSidebar {
  import opened Wrappers
  import opened Seqs
  import opened Text
  import opened Store

  datatype MemberUser = MemberUser(id: string, name: string, email: string, avatar: Option<string>)
  datatype ServerMember = ServerMember(id: string, role: Role, user: MemberUser)

  /** `grouped`: one list per role. */
  datatype Grouped = Grouped(admin: seq<ServerMember>, moderator: seq<ServerMember>, guest: seq<ServerMember>)

  /** `grouped[role]`. */
  function GroupOf(g: Grouped, role: Role): seq<ServerMember> {
    match role
    case ADMIN => g.admin
    case MODERATOR => g.moderator
    case GUEST => g.guest
  }

  function OfRole(role: Role): ServerMember -> bool {
    (m: ServerMember) => m.role == role
  }

  /** The members of each role, in input order. */
  function ByRole(members: seq<ServerMember>): (g: Grouped)
    ensures forall role :: GroupOf(g, role) == Filter(members, OfRole(role))
  {
    Grouped(Filter(members, OfRole(ADMIN)), Filter(members, OfRole(MODERATOR)), Filter(members, OfRole(GUEST)))
  }

  /** `grouped[m.role].push(m)`. */
  function Pushed(g: Grouped, m: ServerMember): Grouped {
    match m.role
    case ADMIN => g.(admin := g.admin + [m])
    case MODERATOR => g.(moderator := g.moderator + [m])
    case GUEST => g.(guest := g.guest + [m])
  }

  /** Grouping one more member pushes it onto its role's list. */
  lemma ByRoleAppend(s: seq<ServerMember>, m: ServerMember)
    ensures ByRole(s + [m]) == Pushed(ByRole(s), m)
  {
    FilterAppend(s, m, OfRole(ADMIN));
    FilterAppend(s, m, OfRole(MODERATOR));
    FilterAppend(s, m, OfRole(GUEST));
  }

  /** `membersByRole`: the loop of lines 112-114 pushing each member onto its role's list. */
  method MembersByRole(members: seq<ServerMember>) returns (g: Grouped)
    ensures g == ByRole(members)
  {
    g := Grouped([], [], []);
    for i := 0 to |members|
      invariant g == ByRole(members[..i])
    {
      var m := members[i];
      assert members[..i + 1] == members[..i] + [m];
      ByRoleAppend(members[..i], m);
      match m.role
      case ADMIN => g := g.(admin := g.admin + [m]);
      case MODERATOR => g := g.(moderator := g.moderator + [m]);
      case GUEST => g := g.(guest := g.guest + [m]);
    }
    assert members[..|members|] == members;
  }

  /** Each member sits in the group for its own role and in no other, and each
      group keeps the input order. */
  lemma GroupsPartition(members: seq<ServerMember>)
    ensures forall m, role :: m in GroupOf(ByRole(members), role) <==> m in members && m.role == role
    ensures forall role :: IsSubseq(GroupOf(ByRole(members), role), members)
  {
  }

  /** The three group sizes add up to the number of members. */
  lemma {:induction false} GroupSizesSum(members: seq<ServerMember>)
    ensures var g := ByRole(members); |g.admin| + |g.moderator| + |g.guest| == |members|
    decreases |members|
  {
    if |members| > 0 {
      GroupSizesSum(members[1..]);
    }
  }

  /** `ROLE_ORDER`. */
  const RoleOrder: seq<Role> := [ADMIN, MODERATOR, GUEST]

  /** `ROLE_ORDER` lists every role. */
  lemma EveryRoleOrdered()
    ensures forall role :: role in RoleOrder
  {
    forall role ensures role in RoleOrder {
      match role
      case ADMIN => assert RoleOrder[0] == role;
      case MODERATOR => assert RoleOrder[1] == role;
      case GUEST => assert RoleOrder[2] == role;
    }
  }

  /** The groups that are drawn, in drawing order: all three while loading, the
      non-empty ones afterwards (line 145). */
  function VisibleGroups(g: Grouped, loading: bool): (r: seq<Role>)
    ensures forall role :: role in r <==> loading || |GroupOf(g, role)| > 0
    ensures IsSubseq(r, RoleOrder)
    ensures loading ==> r == RoleOrder
  {
    var shown := (role: Role) => loading || |GroupOf(g, role)| > 0;
    EveryRoleOrdered();
    Filter(RoleOrder, shown)
  }

  /** `payload?.serverId === serverId`: `None` is a payload that is missing or
      carries no server id. */
  predicate ShouldRefetch(payloadServerId: Option<string>, serverId: string) {
    payloadServerId == Some(serverId)
  }

  /** `@{m.user.id.slice(-6)}`. */
  function Handle(userId: string): (r: string)
    ensures |r| == 1 + (if |userId| < 6 then |userId| else 6)
    ensures r[0] == '@' && r[1..] == userId[|userId| - |r[1..]|..]
    ensures |userId| <= 6 ==> r == "@" + userId
  {
    "@" + LastN(userId, 6)
  }

  /** `(${n})` once loading is over, nothing while loading. */
  function CountLabel(loading: bool, n: nat): (r: string)
    ensures loading <==> r == ""
  {
    if loading then "" else "(" + NatToString(n) + ")"
  }

  /** The panel's state. */
  class Sidebar {
    const serverId: string
    var members: seq<ServerMember>
    var loading: bool
    var isCollapsed: bool

    constructor (serverId: string)
      ensures this.serverId == serverId && members == [] && loading && !isCollapsed
    {
      this.serverId := serverId;
      members := [];
      loading := true;
      isCollapsed := false;
    }

    /** The end of the load of lines 51-64: the list is replaced only by an OK
        response, and loading ends either way, unless the effect was cancelled. */
    method FinishLoad(result: Fetch<seq<ServerMember>>, cancelled: bool)
      modifies this
      ensures cancelled ==> members == old(members) && loading == old(loading)
      ensures !cancelled ==> !loading
      ensures !cancelled ==> members == (if result.Ok? then result.value else old(members))
      ensures isCollapsed == old(isCollapsed)
    {
      if !cancelled {
        if result.Ok? {
          members := result.value;
        }
        loading := false;
      }
    }

    /** A `server-members-updated` event: only one for this server refetches, and
        only an OK response replaces the list. */
    method OnMembersUpdated(payloadServerId: Option<string>, result: Fetch<seq<ServerMember>>)
      modifies this
      ensures members == (if ShouldRefetch(payloadServerId, serverId) && result.Ok? then result.value else old(members))
      ensures loading == old(loading) && isCollapsed == old(isCollapsed)
    {
      if ShouldRefetch(payloadServerId, serverId) {
        if result.Ok? {
          members := result.value;
        }
      }
    }

    /** The collapse button. */
    method ToggleCollapsed()
      modifies this
      ensures isCollapsed == !old(isCollapsed)
      ensures members == old(members) && loading == old(loading)
    {
      isCollapsed := !isCollapsed;
    }

    /** The header: "Members" and the count once loaded. */
    function Header(): string
      reads this
    {
      "Members " + CountLabel(loading, |members|)
    }
  }

  /** An event for another server leaves the panel untouched. */
  method OtherServerIgnored(data: seq<ServerMember>) returns (members: seq<ServerMember>)
    ensures members == []
  {
    var panel := new Sidebar("s1");
    panel.OnMembersUpdated(Some("s2"), Ok(data));
    members := panel.members;
  }
}
