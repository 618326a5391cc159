/** src/hooks/use-chat-socket.ts: the three updaters that reflect socket events into
    the client's cached message list, a paged list whose page 0 holds the most
    recent messages.  A missing cache is `None`. */
module ChatCache {
  import opened Wrappers
  import opened Seqs
  import opened Messages

  datatype Page = Page(items: seq<Message>, nextCursor: Option<string>)
  datatype InfiniteData = InfiniteData(pages: seq<Page>, pageParams: seq<Option<string>>)
  type Cache = Option<InfiniteData>

  /** `items.findIndex(item => item.id === id) !== -1` */
  predicate HasId(items: seq<Message>, id: string) {
    exists k | 0 <= k < |items| :: items[k].id == id
  }

  /** Where the updaters act: the first page holding an item with the id. */
  function FirstPageWith(pages: seq<Page>, id: string): (r: Option<nat>)
    ensures r.Some? ==> r.value < |pages| && HasId(pages[r.value].items, id)
    ensures r.Some? ==> forall k | 0 <= k < r.value :: !HasId(pages[k].items, id)
    ensures r.None? <==> forall k | 0 <= k < |pages| :: !HasId(pages[k].items, id)
    decreases |pages|
  {
    if |pages| == 0 then None
    else if HasId(pages[0].items, id) then Some(0)
    else
      match FirstPageWith(pages[1..], id)
      case None => None
      case Some(i) => Some(i + 1)
  }

  /** The updaters leave a missing or page-less cache as it is. */
  predicate Empty(cache: Cache) {
    cache.None? || |cache.value.pages| == 0
  }

  /** `items.map(item => item.id === m.id ? m : item)` */
  function ReplaceAll(items: seq<Message>, m: Message): (r: seq<Message>)
    ensures |r| == |items|
    ensures forall k | 0 <= k < |items| :: r[k] == if items[k].id == m.id then m else items[k]
  {
    seq(|items|, k requires 0 <= k < |items| => if items[k].id == m.id then m else items[k])
  }

  /** The test `item => item.id !== id`. */
  function OtherId(id: string): Message -> bool {
    (x: Message) => x.id != id
  }

  /** `items.filter(item => item.id !== id)` */
  function RemoveAll(items: seq<Message>, id: string): (r: seq<Message>)
    ensures forall x :: x in r <==> x in items && x.id != id
    ensures forall x :: multiset(r)[x] == if x.id == id then 0 else multiset(items)[x]
    ensures IsSubseq(r, items)
    ensures !HasId(r, id)
  {
    FilterMultiset(items, OtherId(id));
    Filter(items, OtherId(id))
  }

  // ---------------------------------------------------------------------------
  // "message-received"

  /** `handleNewMessage`: the message goes in front of page 0; no other page, no
      cursor and no page parameter changes, and nothing is de-duplicated. */
  function NewMessage(cache: Cache, m: Message): (r: Cache)
    ensures Empty(cache) ==> r == cache
    ensures !Empty(cache) ==>
      && r.Some?
      && r.value.pageParams == cache.value.pageParams
      && |r.value.pages| == |cache.value.pages|
      && r.value.pages[0] == cache.value.pages[0].(items := [m] + cache.value.pages[0].items)
      && r.value.pages[1..] == cache.value.pages[1..]
  {
    if Empty(cache) then cache
    else
      var pages := cache.value.pages;
      Some(cache.value.(pages := pages[0 := pages[0].(items := [m] + pages[0].items)]))
  }

  /** A message already in page 0 is there twice afterwards. */
  lemma NewMessageDuplicates(cache: Cache, m: Message)
    requires !Empty(cache) && m in cache.value.pages[0].items
    ensures multiset(NewMessage(cache, m).value.pages[0].items)[m] >= 2
  {
    var items := cache.value.pages[0].items;
    assert multiset([m] + items) == multiset([m]) + multiset(items);
  }

  // ---------------------------------------------------------------------------
  // "message-changed"

  /** The cache after `handleMessageUpdate`: in the first page holding the id,
      every item with that id is replaced. */
  ghost function Updated(cache: Cache, m: Message): Cache {
    if Empty(cache) then cache
    else
      var pages := cache.value.pages;
      match FirstPageWith(pages, m.id)
      case None => cache
      case Some(i) => Some(cache.value.(pages := pages[i := pages[i].(items := ReplaceAll(pages[i].items, m))]))
  }

  /** `handleMessageUpdate`, with its loop over the copied page array. */
  method MessageUpdate(cache: Cache, m: Message) returns (r: Cache)
    ensures r == Updated(cache, m)
  {
    if Empty(cache) {
      return cache;
    }
    var newData := cache.value.pages;
    var i := 0;
    while i < |newData|
      invariant 0 <= i <= |newData|
      invariant newData == cache.value.pages
      invariant forall k | 0 <= k < i :: !HasId(newData[k].items, m.id)
    {
      if HasId(newData[i].items, m.id) {
        assert FirstPageWith(cache.value.pages, m.id) == Some(i) by {
          FirstPageWithIs(cache.value.pages, m.id, i);
        }
        newData := newData[i := newData[i].(items := ReplaceAll(newData[i].items, m))];
        return Some(cache.value.(pages := newData));
      }
      i := i + 1;
    }
    r := Some(cache.value.(pages := newData));
  }

  /** The first page holding the id is the one the loop stops at. */
  lemma {:induction false} FirstPageWithIs(pages: seq<Page>, id: string, i: nat)
    requires i < |pages| && HasId(pages[i].items, id)
    requires forall k | 0 <= k < i :: !HasId(pages[k].items, id)
    ensures FirstPageWith(pages, id) == Some(i)
    decreases i
  {
    if i > 0 {
      FirstPageWithIs(pages[1..], id, i - 1);
    }
  }

  /** An update keeps the number of pages and every page's length, changes only the
      first page holding the id, and there puts `m` at exactly the positions that
      held the id. */
  lemma UpdateShape(cache: Cache, m: Message)
    requires !Empty(cache)
    ensures Updated(cache, m).Some?
    ensures |Updated(cache, m).value.pages| == |cache.value.pages|
    ensures Updated(cache, m).value.pageParams == cache.value.pageParams
    ensures forall k | 0 <= k < |cache.value.pages| ::
      && |Updated(cache, m).value.pages[k].items| == |cache.value.pages[k].items|
      && Updated(cache, m).value.pages[k].nextCursor == cache.value.pages[k].nextCursor
    ensures forall k | 0 <= k < |cache.value.pages| && Some(k) != FirstPageWith(cache.value.pages, m.id) ::
      Updated(cache, m).value.pages[k] == cache.value.pages[k]
    ensures FirstPageWith(cache.value.pages, m.id).Some? ==>
      var i := FirstPageWith(cache.value.pages, m.id).value;
      forall j | 0 <= j < |cache.value.pages[i].items| ::
        Updated(cache, m).value.pages[i].items[j] ==
          if cache.value.pages[i].items[j].id == m.id then m else cache.value.pages[i].items[j]
  {
  }

  /** An update for an id no page holds changes nothing. */
  lemma UpdateAbsent(cache: Cache, m: Message)
    requires !Empty(cache) && forall k | 0 <= k < |cache.value.pages| :: !HasId(cache.value.pages[k].items, m.id)
    ensures Updated(cache, m) == cache
  {
  }

  /** Delivering the same update twice is the same as delivering it once. */
  lemma UpdateIdempotent(cache: Cache, m: Message)
    ensures Updated(Updated(cache, m), m) == Updated(cache, m)
  {
    if !Empty(cache) && FirstPageWith(cache.value.pages, m.id).Some? {
      var pages := cache.value.pages;
      var i := FirstPageWith(pages, m.id).value;
      var after := Updated(cache, m).value.pages;
      var j :| 0 <= j < |pages[i].items| && pages[i].items[j].id == m.id;
      assert after[i].items[j] == m;
      assert forall k | 0 <= k < i :: after[k] == pages[k];
      FirstPageWithIs(after, m.id, i);
      assert ReplaceAll(after[i].items, m) == after[i].items;
      assert after[i := after[i].(items := ReplaceAll(after[i].items, m))] == after;
    }
  }

  // ---------------------------------------------------------------------------
  // "message-removed"

  /** The cache after `handleMessageDelete`: the first page holding the id drops
      every item with that id. */
  ghost function Deleted(cache: Cache, id: string): Cache {
    if Empty(cache) then cache
    else
      var pages := cache.value.pages;
      match FirstPageWith(pages, id)
      case None => cache
      case Some(i) => Some(cache.value.(pages := pages[i := pages[i].(items := RemoveAll(pages[i].items, id))]))
  }

  /** `handleMessageDelete`, with its loop over the copied page array. */
  method MessageDelete(cache: Cache, id: string) returns (r: Cache)
    ensures r == Deleted(cache, id)
  {
    if Empty(cache) {
      return cache;
    }
    var newData := cache.value.pages;
    var i := 0;
    while i < |newData|
      invariant 0 <= i <= |newData|
      invariant newData == cache.value.pages
      invariant forall k | 0 <= k < i :: !HasId(newData[k].items, id)
    {
      if HasId(newData[i].items, id) {
        assert FirstPageWith(cache.value.pages, id) == Some(i) by {
          FirstPageWithIs(cache.value.pages, id, i);
        }
        newData := newData[i := newData[i].(items := RemoveAll(newData[i].items, id))];
        return Some(cache.value.(pages := newData));
      }
      i := i + 1;
    }
    r := Some(cache.value.(pages := newData));
  }

  /** A delete keeps the number of pages, empties the first page holding the id of
      that id (keeping its other items, with their multiplicity, in order) and leaves every other page,
      later copies included, as it was. */
  lemma DeleteShape(cache: Cache, id: string)
    requires !Empty(cache)
    ensures Deleted(cache, id).Some?
    ensures |Deleted(cache, id).value.pages| == |cache.value.pages|
    ensures Deleted(cache, id).value.pageParams == cache.value.pageParams
    ensures forall k | 0 <= k < |cache.value.pages| && Some(k) != FirstPageWith(cache.value.pages, id) ::
      Deleted(cache, id).value.pages[k] == cache.value.pages[k]
    ensures FirstPageWith(cache.value.pages, id).Some? ==>
      var i := FirstPageWith(cache.value.pages, id).value;
      && !HasId(Deleted(cache, id).value.pages[i].items, id)
      && IsSubseq(Deleted(cache, id).value.pages[i].items, cache.value.pages[i].items)
      && (forall x :: x in Deleted(cache, id).value.pages[i].items <==> x in cache.value.pages[i].items && x.id != id)
      && (forall x :: multiset(Deleted(cache, id).value.pages[i].items)[x] ==
            if x.id == id then 0 else multiset(cache.value.pages[i].items)[x])
  {
  }

  /** A delete for an id no page holds changes nothing. */
  lemma DeleteAbsent(cache: Cache, id: string)
    requires !Empty(cache) && forall k | 0 <= k < |cache.value.pages| :: !HasId(cache.value.pages[k].items, id)
    ensures Deleted(cache, id) == cache
  {
  }

  /** After a delete, the next delete of the same id acts on a strictly later page,
      if on any: copies in later pages survive the first one. */
  lemma DeleteMovesOn(cache: Cache, id: string)
    requires !Empty(cache) && FirstPageWith(cache.value.pages, id).Some?
    ensures FirstPageWith(Deleted(cache, id).value.pages, id).Some? ==>
      FirstPageWith(Deleted(cache, id).value.pages, id).value > FirstPageWith(cache.value.pages, id).value
  {
  }

  /** A new message whose id the cache did not hold is undone by deleting that id. */
  lemma NewThenDelete(cache: Cache, m: Message)
    requires !Empty(cache) && forall k | 0 <= k < |cache.value.pages| :: !HasId(cache.value.pages[k].items, m.id)
    ensures Deleted(NewMessage(cache, m), m.id) == cache
  {
    var pages := cache.value.pages;
    var after := NewMessage(cache, m).value.pages;
    assert after[0].items[0] == m;
    FirstPageWithIs(after, m.id, 0);
    var items := pages[0].items;
    assert ([m] + items)[1..] == items;
    FilterAll(items, OtherId(m.id));
    assert RemoveAll([m] + items, m.id) == items;
    assert after[0 := after[0].(items := items)] == pages;
  }

  /** No event changes the number of pages. */
  lemma PageCountKept(cache: Cache, m: Message, id: string)
    requires cache.Some?
    ensures |NewMessage(cache, m).value.pages| == |cache.value.pages|
    ensures |Updated(cache, m).value.pages| == |cache.value.pages|
    ensures |Deleted(cache, id).value.pages| == |cache.value.pages|
  {
  }
}
