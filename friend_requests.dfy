/** src/app/api/friends/requests/route.ts: sending a friend request (`POST`), which
    may instead find an existing friendship, accept the target's own pending
    request, or report a request already pending; and listing the caller's pending
    requests both ways (`GET`). */
module FriendRequests {
  import opened Wrappers
  import opened Seqs
  import opened Text
  import opened Store

  /** The JSON body: `{ toUserId }`, of whatever JSON type the client sent. */
  datatype RequestBody = RequestBody(toUserId: Option<JsonValue>)

  /** A 200 answer: `{ ok: true, status }` or the request row itself. */
  datatype FriendReply = Outcome(status: string) | Row(request: FriendRequest)

  /** `!toUserId || typeof toUserId !== "string"` lets exactly a non-empty string through. */
  function TargetOf(v: Option<JsonValue>): (r: Option<string>)
    ensures r.Some? <==> v.Some? && v.value.JString? && v.value.s != ""
    ensures r.Some? ==> v == Some(JString(r.value))
  {
    match v
    case Some(JString(s)) => if s == "" then None else Some(s)
    case _ => None
  }

  /** A friendship between the two users in either orientation (lines 19-26). */
  predicate AreFriends(t: Tables, a: string, b: string) {
    exists f | f in t.friendships :: (f.userAId == a && f.userBId == b) || (f.userAId == b && f.userBId == a)
  }

  /** A pending request from `from` to `to` (lines 32-38). */
  function IsIncoming(from: string, to: string): FriendRequest -> bool {
    (r: FriendRequest) => r.fromUserId == from && r.toUserId == to && r.status == PENDING
  }

  /** A request from `from` to `to`, in any state: the `fromUserId_toUserId` key. */
  function IsPair(from: string, to: string): FriendRequest -> bool {
    (r: FriendRequest) => r.fromUserId == from && r.toUserId == to
  }

  /** The `(fromUserId, toUserId)` key is unique in the table. */
  ghost predicate UniquePairs(rs: seq<FriendRequest>) {
    forall i, j | 0 <= i < j < |rs| :: !(rs[i].fromUserId == rs[j].fromUserId && rs[i].toUserId == rs[j].toUserId)
  }

  /** `[a, b].sort()`: the same two ids, the smaller first. */
  function SortedPair(a: string, b: string): (r: (string, string))
    ensures {r.0, r.1} == {a, b}
    ensures r.0 == r.1 || LexLess(r.0, r.1)
  {
    if a == b then (a, b)
    else
      LexLessTotal(a, b);
      if LexLess(b, a) then (b, a) else (a, b)
  }

  /** `update({ where: { id }, data: { status } })`. */
  function SetStatusById(rs: seq<FriendRequest>, id: string, status: RequestStatus): (r: seq<FriendRequest>)
    ensures |r| == |rs|
    ensures forall k | 0 <= k < |rs| :: r[k] == if rs[k].id == id then rs[k].(status := status) else rs[k]
  {
    seq(|rs|, k requires 0 <= k < |rs| => if rs[k].id == id then rs[k].(status := status) else rs[k])
  }

  /** The `update` half of the upsert on the `fromUserId_toUserId` key. */
  function SetStatusByPair(rs: seq<FriendRequest>, from: string, to: string, status: RequestStatus): (r: seq<FriendRequest>)
    ensures |r| == |rs|
    ensures forall k | 0 <= k < |rs| :: r[k] == if IsPair(from, to)(rs[k]) then rs[k].(status := status) else rs[k]
  {
    seq(|rs|, k requires 0 <= k < |rs| => if IsPair(from, to)(rs[k]) then rs[k].(status := status) else rs[k])
  }

  /** The request passes the checks of lines 7-16 and names `target`, who is not the caller. */
  predicate Addressed(me: Option<User>, body: Body<RequestBody>, target: string) {
    me.Some? && body.Some? && TargetOf(body.value.toUserId) == Some(target) && target != me.value.id
  }

  /** `POST` from `me` with the given body: the tables afterwards and the answer.
      `newId` and `now` are the id and timestamp the store assigns to a created row. */
  function Send(t: Tables, failing: bool, me: Option<User>, body: Body<RequestBody>, newId: string, now: int): (s: Step<FriendReply>)
    ensures s.res.Text? ==> s.t == t
    ensures failing ==> s.t == t && s.res.Text?
    ensures s.res == Json(Outcome("already_friends")) || s.res == Json(Outcome("pending")) ==> s.t == t
    ensures s.res.Json? ==> me.Some? && body.Some? && TargetOf(body.value.toUserId).Some?
                            && TargetOf(body.value.toUserId).value != me.value.id
    ensures s.t.users == t.users && s.t.servers == t.servers && s.t.members == t.members && s.t.channels == t.channels
            && s.t.messages == t.messages && s.t.participants == t.participants
  {
    if me.None? then Step(t, Text(401, "Unauthorized"))
    else if body.None? then Step(t, Text(500, "Internal Error"))
    else match TargetOf(body.value.toUserId)
      case None => Step(t, Text(400, "toUserId is required"))
      case Some(target) =>
        if target == me.value.id then Step(t, Text(400, "Cannot friend yourself"))
        else if failing then Step(t, Text(500, "Internal Error"))
        else if AreFriends(t, me.value.id, target) then Step(t, Json(Outcome("already_friends")))
        else match FindFirst(t.requests, IsIncoming(target, me.value.id))
          case Some(incoming) =>
            var pair := SortedPair(me.value.id, target);
            Step(t.(friendships := t.friendships + [Friendship(newId, pair.0, pair.1, now)],
                    requests := SetStatusById(t.requests, incoming.id, ACCEPTED)),
                 Json(Outcome("auto_accepted")))
          case None =>
            match FindFirst(t.requests, IsPair(me.value.id, target))
            case Some(existing) =>
              if existing.status == PENDING then Step(t, Json(Outcome("pending")))
              else Step(t.(requests := SetStatusByPair(t.requests, me.value.id, target, PENDING)),
                        Json(Row(existing.(status := PENDING))))
            case None =>
              var request := FriendRequest(newId, me.value.id, target, PENDING, now);
              Step(t.(requests := t.requests + [request]), Json(Row(request)))
  }

  /** `Send` rung by rung, in the route's order: the three rejections, a failing
      store, an existing friendship, the target's own pending request (the earliest
      one), the caller's row to the target (pending, or reset to pending), and
      finally a new pending row. */
  lemma SendRungs(t: Tables, failing: bool, me: Option<User>, body: Body<RequestBody>, newId: string, now: int)
    ensures me.None? ==> Send(t, failing, me, body, newId, now) == Step(t, Text(401, "Unauthorized"))
    ensures me.Some? && body.None? ==> Send(t, failing, me, body, newId, now) == Step(t, Text(500, "Internal Error"))
    ensures me.Some? && body.Some? && TargetOf(body.value.toUserId).None? ==> Send(t, failing, me, body, newId, now) == Step(t, Text(400, "toUserId is required"))
    ensures me.Some? && body.Some? && TargetOf(body.value.toUserId) == Some(me.value.id) ==>
      Send(t, failing, me, body, newId, now) == Step(t, Text(400, "Cannot friend yourself"))
    ensures forall target | Addressed(me, body, target) && failing :: Send(t, failing, me, body, newId, now) == Step(t, Text(500, "Internal Error"))
    ensures forall target | Addressed(me, body, target) && !failing && AreFriends(t, me.value.id, target) ::
      Send(t, failing, me, body, newId, now) == Step(t, Json(Outcome("already_friends")))
    ensures forall target, i | Addressed(me, body, target) && !failing && !AreFriends(t, me.value.id, target)
                               && FirstAt(t.requests, IsIncoming(target, me.value.id), i) ::
      && Send(t, failing, me, body, newId, now).res == Json(Outcome("auto_accepted"))
      && Send(t, failing, me, body, newId, now).t == t.(friendships := t.friendships + [Friendship(newId, SortedPair(me.value.id, target).0, SortedPair(me.value.id, target).1, now)],
                   requests := SetStatusById(t.requests, t.requests[i].id, ACCEPTED))
    ensures forall target, i | Addressed(me, body, target) && !failing && !AreFriends(t, me.value.id, target)
                               && (forall r | r in t.requests :: !IsIncoming(target, me.value.id)(r))
                               && FirstAt(t.requests, IsPair(me.value.id, target), i) ::
      if t.requests[i].status == PENDING then Send(t, failing, me, body, newId, now) == Step(t, Json(Outcome("pending")))
      else Send(t, failing, me, body, newId, now) == Step(t.(requests := SetStatusByPair(t.requests, me.value.id, target, PENDING)), Json(Row(t.requests[i].(status := PENDING))))
    ensures forall target | Addressed(me, body, target) && !failing && !AreFriends(t, me.value.id, target)
                            && (forall r | r in t.requests :: !IsIncoming(target, me.value.id)(r) && !IsPair(me.value.id, target)(r)) ::
      && Send(t, failing, me, body, newId, now).res == Json(Row(FriendRequest(newId, me.value.id, target, PENDING, now)))
      && Send(t, failing, me, body, newId, now).t == t.(requests := t.requests + [FriendRequest(newId, me.value.id, target, PENDING, now)])
  {
    if me.Some? && body.Some? && TargetOf(body.value.toUserId).Some? {
      var target := TargetOf(body.value.toUserId).value;
      FindFirstAt(t.requests, IsIncoming(target, me.value.id));
      FindFirstAt(t.requests, IsPair(me.value.id, target));
    }
  }

  /** Whatever the tables, an automatic acceptance leaves the two users friends,
      and the target's pending request to the caller is ACCEPTED in place. */
  lemma AutoAcceptBefriends(t: Tables, me: User, body: RequestBody, newId: string, now: int)
    requires Send(t, false, Some(me), Some(body), newId, now).res == Json(Outcome("auto_accepted"))
    ensures TargetOf(body.toUserId).Some?
    ensures var target := TargetOf(body.toUserId).value;
      var s := Send(t, false, Some(me), Some(body), newId, now);
      && AreFriends(s.t, me.id, target) && AreFriends(s.t, target, me.id)
      && |s.t.requests| == |t.requests|
      && exists i | 0 <= i < |t.requests| :: IsIncoming(target, me.id)(t.requests[i]) && s.t.requests[i].status == ACCEPTED
  {
    var target := TargetOf(body.toUserId).value;
    var s := Send(t, false, Some(me), Some(body), newId, now);
    var incoming := FindFirst(t.requests, IsIncoming(target, me.id));
    assert incoming.Some?;
    var i :| 0 <= i < |t.requests| && t.requests[i] == incoming.value;
    assert s.t.requests[i].status == ACCEPTED;
    var pair := SortedPair(me.id, target);
    assert Friendship(newId, pair.0, pair.1, now) in s.t.friendships;
  }

  /** The handler, one store call at a time. */
  method Post(db: Database, me: Option<User>, body: Body<RequestBody>, newId: string, now: int)
    returns (res: Response<FriendReply>)
    modifies db
    ensures Step(db.t, res) == Send(old(db.t), old(db.failing), me, body, newId, now)
    ensures db.failing == old(db.failing)
  {
    if me.None? {
      return Text(401, "Unauthorized");
    }
    if body.None? {
      return Text(500, "Internal Error");
    }
    var target := TargetOf(body.value.toUserId);
    if target.None? {
      return Text(400, "toUserId is required");
    }
    if target.value == me.value.id {
      return Text(400, "Cannot friend yourself");
    }
    if db.failing {
      return Text(500, "Internal Error");
    }
    if AreFriends(db.t, me.value.id, target.value) {
      return Json(Outcome("already_friends"));
    }
    var incoming := FindFirst(db.t.requests, IsIncoming(target.value, me.value.id));
    if incoming.Some? {
      var pair := SortedPair(me.value.id, target.value);
      db.t := db.t.(friendships := db.t.friendships + [Friendship(newId, pair.0, pair.1, now)]);
      db.t := db.t.(requests := SetStatusById(db.t.requests, incoming.value.id, ACCEPTED));
      return Json(Outcome("auto_accepted"));
    }
    var existing := FindFirst(db.t.requests, IsPair(me.value.id, target.value));
    if existing.Some? && existing.value.status == PENDING {
      return Json(Outcome("pending"));
    }
    if existing.Some? {
      db.t := db.t.(requests := SetStatusByPair(db.t.requests, me.value.id, target.value, PENDING));
      res := Json(Row(existing.value.(status := PENDING)));
    } else {
      var request := FriendRequest(newId, me.value.id, target.value, PENDING, now);
      db.t := db.t.(requests := db.t.requests + [request]);
      res := Json(Row(request));
    }
  }

  /** A request the caller sends is, afterwards, a pending row from the caller to
      the target, and it is the row returned. */
  lemma SentRowIsPending(t: Tables, me: User, body: RequestBody, newId: string, now: int)
    requires Send(t, false, Some(me), Some(body), newId, now).res.Json?
    requires Send(t, false, Some(me), Some(body), newId, now).res.value.Row?
    ensures var s := Send(t, false, Some(me), Some(body), newId, now);
      var target := TargetOf(body.toUserId).value;
      && s.res.value.request in s.t.requests
      && IsIncoming(me.id, target)(s.res.value.request)
  {
    var target := TargetOf(body.toUserId).value;
    var s := Send(t, false, Some(me), Some(body), newId, now);
    match FindFirst(t.requests, IsPair(me.id, target))
    case Some(existing) =>
      var i :| 0 <= i < |t.requests| && t.requests[i] == existing;
      assert s.t.requests[i] == existing.(status := PENDING);
    case None =>
      assert s.t.requests[|t.requests|] == s.res.value.request;
  }

  /** Between users who are not friends, with no request the other way, a
      request whose rows from the caller to the target are all pending (and at
      least one exists) answers "pending" and writes nothing. */
  lemma PendingAnswer(t: Tables, me: User, target: string, n: string, now: int)
    requires me.id != target && target != ""
    requires !AreFriends(t, me.id, target)
    requires forall r | r in t.requests :: !IsIncoming(target, me.id)(r)
    requires forall r | r in t.requests && IsPair(me.id, target)(r) :: r.status == PENDING
    requires exists r | r in t.requests :: IsPair(me.id, target)(r)
    ensures Send(t, false, Some(me), Some(RequestBody(Some(JString(target)))), n, now) == Step(t, Json(Outcome("pending")))
  {
    assert TargetOf(Some(JString(target))) == Some(target);
    assert FindFirst(t.requests, IsIncoming(target, me.id)).None?;
    var existing := FindFirst(t.requests, IsPair(me.id, target));
    assert existing.Some?;
  }

  /** Between friends any request answers "already_friends". */
  lemma FriendsAnswer(t: Tables, me: User, target: string, n: string, now: int)
    requires me.id != target && target != ""
    requires AreFriends(t, me.id, target)
    ensures Send(t, false, Some(me), Some(RequestBody(Some(JString(target)))), n, now) == Step(t, Json(Outcome("already_friends")))
  {
    assert TargetOf(Some(JString(target))) == Some(target);
  }

  /** Sending the same request again while it is pending answers "pending" and
      writes nothing. */
  lemma SecondSendPending(t: Tables, me: User, body: RequestBody, newId: string, now: int, newId2: string, now2: int)
    requires Send(t, false, Some(me), Some(body), newId, now).res.Json?
    requires Send(t, false, Some(me), Some(body), newId, now).res.value.Row?
    ensures var s := Send(t, false, Some(me), Some(body), newId, now);
      Send(s.t, false, Some(me), Some(body), newId2, now2) == Step(s.t, Json(Outcome("pending")))
  {
    var target := TargetOf(body.toUserId).value;
    assert body == RequestBody(Some(JString(target)));
    var s := Send(t, false, Some(me), Some(body), newId, now);
    assert FindFirst(t.requests, IsIncoming(target, me.id)).None?;
    assert s.t.friendships == t.friendships;
    forall x | x in s.t.requests ensures !IsIncoming(target, me.id)(x) && (IsPair(me.id, target)(x) ==> x.status == PENDING) {
      var k :| 0 <= k < |s.t.requests| && s.t.requests[k] == x;
      if k < |t.requests| {
        assert t.requests[k] in t.requests;
      }
    }
    SentRowIsPending(t, me, body, newId, now);
    PendingAnswer(s.t, me, target, newId2, now2);
  }

  /** A request between two users who are not friends and have no row between
      them either way creates a pending row from the sender to the target. */
  lemma FreshSendCreates(t: Tables, me: User, target: string, n: string, now: int)
    requires me.id != target && target != ""
    requires !AreFriends(t, me.id, target)
    requires forall r | r in t.requests :: !IsPair(me.id, target)(r) && !IsPair(target, me.id)(r)
    ensures var row := FriendRequest(n, me.id, target, PENDING, now);
      Send(t, false, Some(me), Some(RequestBody(Some(JString(target)))), n, now)
        == Step(t.(requests := t.requests + [row]), Json(Row(row)))
  {
    assert TargetOf(Some(JString(target))) == Some(target);
    assert FindFirst(t.requests, IsIncoming(target, me.id)).None? by {
      forall x | x in t.requests ensures !IsIncoming(target, me.id)(x) {
        assert !IsPair(target, me.id)(x);
      }
    }
    assert FindFirst(t.requests, IsPair(me.id, target)).None?;
  }

  /** When that row is the only request between the two, the target's own
      request accepts it and records the friendship. */
  lemma AnswerAccepts(t: Tables, from: string, me: User, row: FriendRequest, n: string, now: int)
    requires me.id != from && from != ""
    requires row.fromUserId == from && row.toUserId == me.id && row.status == PENDING
    requires !AreFriends(t, me.id, from)
    requires forall r | r in t.requests :: !IsPair(from, me.id)(r)
    ensures var t1 := t.(requests := t.requests + [row]);
      var pair := SortedPair(me.id, from);
      Send(t1, false, Some(me), Some(RequestBody(Some(JString(from)))), n, now)
        == Step(t1.(friendships := t.friendships + [Friendship(n, pair.0, pair.1, now)],
                    requests := SetStatusById(t1.requests, row.id, ACCEPTED)),
                Json(Outcome("auto_accepted")))
  {
    var t1 := t.(requests := t.requests + [row]);
    assert TargetOf(Some(JString(from))) == Some(from);
    assert !AreFriends(t1, me.id, from);
    assert t1.requests[|t.requests|] == row;
    assert IsIncoming(from, me.id)(row);
    var inc := FindFirst(t1.requests, IsIncoming(from, me.id));
    assert inc.Some?;
    assert inc.value !in t.requests;
    assert inc.value == row;
  }

  /** Two users who request each other, with no request between them before, end as
      friends: the first request is pending, the second accepts it automatically,
      no pending request is left between them, and any further request either way
      answers "already_friends". */
  lemma CrossRequestsBefriend(t: Tables, a: User, b: User, n1: string, n2: string, n3: string, t1: int, t2: int, t3: int)
    requires a.id != b.id && a.id != "" && b.id != ""
    requires !AreFriends(t, a.id, b.id)
    requires forall r | r in t.requests :: !IsPair(a.id, b.id)(r) && !IsPair(b.id, a.id)(r)
    ensures var s1 := Send(t, false, Some(a), Some(RequestBody(Some(JString(b.id)))), n1, t1);
      var s2 := Send(s1.t, false, Some(b), Some(RequestBody(Some(JString(a.id)))), n2, t2);
      && s1.res == Json(Row(FriendRequest(n1, a.id, b.id, PENDING, t1)))
      && s2.res == Json(Outcome("auto_accepted"))
      && AreFriends(s2.t, a.id, b.id)
      && (forall r | r in s2.t.requests :: !IsIncoming(a.id, b.id)(r) && !IsIncoming(b.id, a.id)(r))
      && Send(s2.t, false, Some(a), Some(RequestBody(Some(JString(b.id)))), n3, t3).res == Json(Outcome("already_friends"))
      && Send(s2.t, false, Some(b), Some(RequestBody(Some(JString(a.id)))), n3, t3).res == Json(Outcome("already_friends"))
  {
    var row := FriendRequest(n1, a.id, b.id, PENDING, t1);
    var s1t := t.(requests := t.requests + [row]);
    var pair := SortedPair(b.id, a.id);
    var f := Friendship(n2, pair.0, pair.1, t2);
    var s2t := s1t.(friendships := t.friendships + [f], requests := SetStatusById(s1t.requests, n1, ACCEPTED));
    assert Send(t, false, Some(a), Some(RequestBody(Some(JString(b.id)))), n1, t1) == Step(s1t, Json(Row(row))) by {
      FreshSendCreates(t, a, b.id, n1, t1);
    }
    assert Send(s1t, false, Some(b), Some(RequestBody(Some(JString(a.id)))), n2, t2) == Step(s2t, Json(Outcome("auto_accepted"))) by {
      assert !AreFriends(t, b.id, a.id);
      AnswerAccepts(t, a.id, b, row, n2, t2);
    }
    assert AreFriends(s2t, a.id, b.id) && AreFriends(s2t, b.id, a.id) by {
      assert f in s2t.friendships;
    }
    FriendsAnswer(s2t, a, b.id, n3, t3);
    FriendsAnswer(s2t, b, a.id, n3, t3);
    forall r | r in s2t.requests ensures !IsIncoming(a.id, b.id)(r) && !IsIncoming(b.id, a.id)(r) {
      var k :| 0 <= k < |s2t.requests| && s2t.requests[k] == r;
      if k < |t.requests| {
        assert t.requests[k] in t.requests;
      }
    }
  }

  /** Requests keep the `(fromUserId, toUserId)` key unique. */
  lemma SendKeepsUniquePairs(t: Tables, failing: bool, me: Option<User>, body: Body<RequestBody>, newId: string, now: int)
    requires UniquePairs(t.requests)
    ensures UniquePairs(Send(t, failing, me, body, newId, now).t.requests)
  {
    var s := Send(t, failing, me, body, newId, now);
    if s.t.requests != t.requests {
      var target := TargetOf(body.value.toUserId).value;
      var rs := s.t.requests;
      if |rs| == |t.requests| {
        forall i, j | 0 <= i < j < |rs| ensures !(rs[i].fromUserId == rs[j].fromUserId && rs[i].toUserId == rs[j].toUserId) {
          assert rs[i].fromUserId == t.requests[i].fromUserId && rs[i].toUserId == t.requests[i].toUserId;
          assert rs[j].fromUserId == t.requests[j].fromUserId && rs[j].toUserId == t.requests[j].toUserId;
        }
      } else {
        assert FindFirst(t.requests, IsPair(me.value.id, target)).None?;
        forall i, j | 0 <= i < j < |rs| ensures !(rs[i].fromUserId == rs[j].fromUserId && rs[i].toUserId == rs[j].toUserId) {
          if j == |t.requests| {
            assert rs[i] == t.requests[i] && t.requests[i] in t.requests;
          } else {
            assert rs[i] == t.requests[i] && rs[j] == t.requests[j];
          }
        }
      }
    }
  }

  // ---------------------------------------------------------------------------
  // GET

  /** Both lists of the `GET` answer. */
  datatype PendingLists = PendingLists(incoming: seq<FriendRequest>, outgoing: seq<FriendRequest>)

  function CreatedAt(r: FriendRequest): int {
    r.createdAt
  }

  function PendingTo(id: string): FriendRequest -> bool {
    (r: FriendRequest) => r.toUserId == id && r.status == PENDING
  }

  function PendingFrom(id: string): FriendRequest -> bool {
    (r: FriendRequest) => r.fromUserId == id && r.status == PENDING
  }

  /** `GET`: the pending requests to the caller and from the caller, newest
      first, each a rearrangement of exactly the matching rows. */
  function ListPending(t: Tables, failing: bool, me: Option<User>): (r: Response<PendingLists>)
    ensures me.None? ==> r == Text(401, "Unauthorized")
    ensures me.Some? && failing ==> r == Text(500, "Internal Error")
    ensures me.Some? && !failing ==> r.Json?
    ensures r.Json? ==>
      && (forall x :: x in r.value.incoming <==> x in t.requests && x.toUserId == me.value.id && x.status == PENDING)
      && (forall x :: x in r.value.outgoing <==> x in t.requests && x.fromUserId == me.value.id && x.status == PENDING)
      && multiset(r.value.incoming) == multiset(Filter(t.requests, PendingTo(me.value.id)))
      && multiset(r.value.outgoing) == multiset(Filter(t.requests, PendingFrom(me.value.id)))
      && SortedDesc(r.value.incoming, CreatedAt) && SortedDesc(r.value.outgoing, CreatedAt)
  {
    if me.None? then Text(401, "Unauthorized")
    else if failing then Text(500, "Internal Error")
    else
      var incoming := SortDesc(Filter(t.requests, PendingTo(me.value.id)), CreatedAt);
      var outgoing := SortDesc(Filter(t.requests, PendingFrom(me.value.id)), CreatedAt);
      Json(PendingLists(incoming, outgoing))
  }
}
