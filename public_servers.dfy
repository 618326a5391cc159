/** src/app/api/servers/public/route.ts: `GET` lists up to ten servers the caller
    has not joined, optionally only those whose name contains the search text,
    each as a discovery card. */
module PublicServers {
  import opened Wrappers
  import opened Seqs
  import opened Text
  import opened Store

  /** One entry of the answer. */
  datatype PublicServer = PublicServer(id: string, name: string, description: string, imageUrl: Option<string>,
                                       memberCount: nat, isPublic: bool, inviteCode: string)

  /** The most entries one answer holds (`take: 10`). */
  const PageSize := 10

  function InServer(serverId: string): Member -> bool {
    (m: Member) => m.serverId == serverId
  }

  /** `_count.members`. */
  function MemberCount(t: Tables, serverId: string): nat {
    |Filter(t.members, InServer(serverId))|
  }

  predicate Joined(t: Tables, s: Server, userId: string) {
    exists m | m in t.members :: m.serverId == s.id && m.userId == userId
  }

  /** `members: { none: { userId } }`, and a name containing the search text when
      there is one. */
  function Listed(t: Tables, userId: string, search: string): Server -> bool {
    (s: Server) => !Joined(t, s, userId) && (search != "" ==> Contains(s.name, search))
  }

  function Description(count: nat): string {
    "A community server with " + NatToString(count) + " members"
  }

  function Card(t: Tables, s: Server): PublicServer {
    var count := MemberCount(t, s.id);
    PublicServer(s.id, s.name, Description(count), s.avatar, count, true, s.inviteCode)
  }

  function Cards(t: Tables, ss: seq<Server>): (r: seq<PublicServer>)
    ensures |r| == |ss|
    ensures forall k | 0 <= k < |ss| :: r[k] == Card(t, ss[k])
  {
    seq(|ss|, k requires 0 <= k < |ss| => Card(t, ss[k]))
  }

  /** `GET`: the search text is `search || ""`; the answer is the first ten listed
      servers in storage order, each carrying its member count and a description
      that states it. */
  function Discover(t: Tables, failing: bool, profile: Option<User>, search: Option<string>): (r: Response<seq<PublicServer>>)
    ensures profile.None? ==> r == Text(401, "Unauthorized")
    ensures profile.Some? && failing ==> r == Text(500, "Internal Error")
    ensures profile.Some? && !failing ==> r.Json?
    ensures r.Json? ==> var listed := Filter(t.servers, Listed(t, profile.value.id, OrElse(search, "")));
      && |r.value| == (if |listed| < PageSize then |listed| else PageSize)
      && r.value == Cards(t, listed[..|r.value|])
    ensures r.Json? ==> forall p | p in r.value ::
      && p.isPublic && p.description == Description(p.memberCount)
      && exists s | s in t.servers ::
           && p.id == s.id && p.name == s.name && p.inviteCode == s.inviteCode && p.imageUrl == s.avatar
           && p.memberCount == MemberCount(t, s.id)
           && !Joined(t, s, profile.value.id)
           && (Truthy(search) ==> Contains(s.name, search.value))
  {
    if profile.None? then Text(401, "Unauthorized")
    else if failing then Text(500, "Internal Error")
    else
      var listed := Filter(t.servers, Listed(t, profile.value.id, OrElse(search, "")));
      var n := if |listed| < PageSize then |listed| else PageSize;
      var page := listed[..n];
      assert forall s | s in page :: s in listed;
      Json(Cards(t, page))
  }

  /** Once the caller has joined a server, no entry of the answer names it. */
  lemma JoinedNotListed(t: Tables, profile: User, search: Option<string>, server: Server)
    requires Joined(t, server, profile.id)
    ensures forall p | p in Discover(t, false, Some(profile), search).value :: p.id != server.id
  {
    forall p | p in Discover(t, false, Some(profile), search).value ensures p.id != server.id {
      var s :| s in t.servers && p.id == s.id && !Joined(t, s, profile.id);
    }
  }
}
