/** src/app/api/friends/route.ts: `GET` lists the caller's friends, each friendship
    seen from the caller's side as "the other user", answered as that user's row. */
module Friends {
  import opened Wrappers
  import opened Seqs
  import opened Store

  /** `OR: [{ userAId: me }, { userBId: me }]`. */
  function Involves(me: string): Friendship -> bool {
    (f: Friendship) => f.userAId == me || f.userBId == me
  }

  function FriendshipAge(f: Friendship): int {
    f.createdAt
  }

  /** `f.userAId === me.id ? f.userB : f.userA`. */
  function OtherEnd(me: string, f: Friendship): string {
    if f.userAId == me then f.userBId else f.userAId
  }

  /** Some stored user has this id. */
  predicate HasUser(users: seq<User>, id: string) {
    exists u | u in users :: u.id == id
  }

  /** Both ends of every friendship are stored users: the `userA` and `userB`
      relations the route includes. */
  predicate Linked(t: Tables) {
    forall f | f in t.friendships :: HasUser(t.users, f.userAId) && HasUser(t.users, f.userBId)
  }

  function HasId(id: string): User -> bool {
    (u: User) => u.id == id
  }

  /** The ids of `users`, in order. */
  function Ids(users: seq<User>): (r: seq<string>)
    ensures |r| == |users| && forall k | 0 <= k < |users| :: r[k] == users[k].id
  {
    seq(|users|, k requires 0 <= k < |users| => users[k].id)
  }

  /** Each friendship of `fs` seen from `me`, in order: the user row at its other end. */
  function Ends(users: seq<User>, me: string, fs: seq<Friendship>): (r: seq<User>)
    requires forall f | f in fs :: HasUser(users, OtherEnd(me, f))
    ensures |r| == |fs|
    ensures forall k | 0 <= k < |fs| :: r[k] in users && r[k].id == OtherEnd(me, fs[k])
    decreases |fs|
  {
    if |fs| == 0 then []
    else
      var row := FindFirst(users, HasId(OtherEnd(me, fs[0])));
      assert row.Some? by {
        assert fs[0] in fs;
        assert HasUser(users, OtherEnd(me, fs[0]));
        var u :| u in users && u.id == OtherEnd(me, fs[0]);
        assert HasId(OtherEnd(me, fs[0]))(u);
      }
      [row.value] + Ends(users, me, fs[1..])
  }

  /** `friends` is `fs` seen from `me`, and `fs` is the caller's friendships newest first. */
  ghost predicate FriendsInOrder(t: Tables, me: string, fs: seq<Friendship>, friends: seq<User>) {
    && multiset(fs) == multiset(Filter(t.friendships, Involves(me)))
    && SortedDesc(fs, FriendshipAge)
    && |friends| == |fs|
    && forall k | 0 <= k < |fs| :: friends[k] in t.users && friends[k].id == OtherEnd(me, fs[k])
  }

  /** `GET`: one user row per friendship involving the caller, in the order of the
      friendships' creation time descending, each the endpoint that is not the
      caller; the store is only read. */
  function List(t: Tables, failing: bool, me: Option<User>): (r: Response<seq<User>>)
    requires Linked(t)
    ensures me.None? ==> r == Text(401, "Unauthorized")
    ensures me.Some? && failing ==> r == Text(500, "Internal Error")
    ensures me.Some? && !failing ==> r.Json?
    ensures r.Json? ==> |r.value| == |Filter(t.friendships, Involves(me.value.id))|
    ensures r.Json? ==> exists fs :: FriendsInOrder(t, me.value.id, fs, r.value)
    ensures r.Json? ==> forall x | x in r.value :: x in t.users
    ensures r.Json? ==> forall id :: id in Ids(r.value) <==>
      exists f | f in t.friendships :: Involves(me.value.id)(f) && id == OtherEnd(me.value.id, f)
  {
    if me.None? then Text(401, "Unauthorized")
    else if failing then Text(500, "Internal Error")
    else
      var mine := Filter(t.friendships, Involves(me.value.id));
      var fs := SortDesc(mine, FriendshipAge);
      SameElements(fs, mine);
      LinkedEnds(t, me.value.id, fs);
      var friends := Ends(t.users, me.value.id, fs);
      assert FriendsInOrder(t, me.value.id, fs, friends);
      EndIds(t.users, me.value.id, fs);
      Json(friends)
  }

  /** Through the foreign keys, the other end of each of `fs` is a stored user. */
  lemma LinkedEnds(t: Tables, me: string, fs: seq<Friendship>)
    requires Linked(t) && forall f | f in fs :: f in t.friendships
    ensures forall f | f in fs :: HasUser(t.users, OtherEnd(me, f))
  {
    forall f | f in fs ensures HasUser(t.users, OtherEnd(me, f)) {
      assert f in t.friendships;
    }
  }

  /** The ids answered are exactly the other ends of `fs`. */
  lemma EndIds(users: seq<User>, me: string, fs: seq<Friendship>)
    requires forall f | f in fs :: HasUser(users, OtherEnd(me, f))
    ensures forall id :: id in Ids(Ends(users, me, fs)) <==> exists f | f in fs :: id == OtherEnd(me, f)
  {
    var ids := Ids(Ends(users, me, fs));
    forall id ensures id in ids <==> exists f | f in fs :: id == OtherEnd(me, f) {
      if id in ids {
        var k :| 0 <= k < |ids| && ids[k] == id;
        assert fs[k] in fs;
      }
      if f :| f in fs && id == OtherEnd(me, f) {
        var k :| 0 <= k < |fs| && fs[k] == f;
        assert ids[k] == id;
      }
    }
  }

  lemma SameElements(a: seq<Friendship>, b: seq<Friendship>)
    requires multiset(a) == multiset(b)
    ensures forall f :: f in a <==> f in b
  {
    assert forall f :: f in a <==> f in multiset(a);
    assert forall f :: f in b <==> f in multiset(b);
  }

  /** No friendship joins a user to themself. */
  ghost predicate NoSelfFriendship(t: Tables) {
    forall f | f in t.friendships :: f.userAId != f.userBId
  }

  /** When no friendship joins a user to themself, no friend answered is the caller,
      and a friendship between two users makes each list the other. */
  lemma FriendsAreOthers(t: Tables, me: User, other: string)
    requires Linked(t) && NoSelfFriendship(t)
    ensures var r := List(t, false, Some(me)); me.id !in Ids(r.value)
    ensures var r := List(t, false, Some(me));
      (exists f | f in t.friendships :: (f.userAId == me.id && f.userBId == other) || (f.userAId == other && f.userBId == me.id))
      ==> other in Ids(r.value)
  {
    var r := List(t, false, Some(me));
    assert forall f | f in t.friendships && Involves(me.id)(f) :: OtherEnd(me.id, f) != me.id;
    if f :| f in t.friendships && ((f.userAId == me.id && f.userBId == other) || (f.userAId == other && f.userBId == me.id)) {
      assert Involves(me.id)(f) && other == OtherEnd(me.id, f);
    }
  }
}
