/** src/components/modals/server-discovery-modal.tsx: the dialog listing public
    servers.  It refetches the list on every query change, narrows it again on
    the client by name or description, and joins a server by its invite code. */
module ServerDiscoveryModal {
  import opened Wrappers
  import opened Seqs
  import opened Text
  import opened ModalStore

  datatype PublicServer = PublicServer(id: string, name: string, description: Option<string>,
                                       memberCount: int, isPublic: bool, inviteCode: string)

  /** The test of lines 94-95: the name, or the description when there is one,
      contains the query, all lower-cased. */
  function MatchesQuery(query: string): PublicServer -> bool {
    (s: PublicServer) =>
      Contains(ToLower(s.name), ToLower(query))
      || (s.description.Some? && Contains(ToLower(s.description.value), ToLower(query)))
  }

  /** `filteredServers`. */
  function FilteredServers(servers: seq<PublicServer>, query: string): (r: seq<PublicServer>)
    ensures forall s :: s in r <==> s in servers && MatchesQuery(query)(s)
    ensures IsSubseq(r, servers)
    ensures forall s :: multiset(r)[s] == if MatchesQuery(query)(s) then multiset(servers)[s] else 0
    ensures forall s | s in r && s.description.None? :: Contains(ToLower(s.name), ToLower(query))
  {
    FilterMultiset(servers, MatchesQuery(query));
    Filter(servers, MatchesQuery(query))
  }

  /** An empty query keeps every server, in order. */
  lemma EmptyQueryKeepsAll(servers: seq<PublicServer>)
    ensures FilteredServers(servers, "") == servers
  {
    forall k | 0 <= k < |servers| ensures MatchesQuery("")(servers[k]) {
      ContainsEmpty(ToLower(servers[k].name));
    }
    FilterAll(servers, MatchesQuery(""));
  }

  /** The `search` parameter of lines 46-49: set only for a non-empty query. */
  function SearchParam(query: string): (r: Option<string>)
    ensures r.Some? <==> query != ""
    ensures r.Some? ==> r.value == query
  {
    if query != "" then Some(query) else None
  }

  /** The dialog's state. */
  class DiscoveryDialog {
    var servers: seq<PublicServer>
    var searchQuery: string
    var isLoading: bool

    constructor ()
      ensures servers == [] && searchQuery == "" && !isLoading
    {
      servers := [];
      searchQuery := "";
      isLoading := false;
    }

    /** `fetchPublicServers`: an OK response replaces the list; a response that
        is not OK or a thrown error empties it. */
    method FetchPublicServers(response: Fetch<seq<PublicServer>>)
      modifies this
      ensures servers == (if response.Ok? then response.value else [])
      ensures searchQuery == old(searchQuery) && isLoading == old(isLoading)
    {
      if response.Ok? {
        servers := response.value;
      } else {
        servers := [];
      }
    }

    /** Typing in the search box. */
    method SetSearchQuery(query: string)
      modifies this
      ensures searchQuery == query && servers == old(servers) && isLoading == old(isLoading)
    {
      searchQuery := query;
    }

    /** `handleJoinServer`: an OK join closes the dialog and navigates to the
        joined server; anything else stays put.  Loading ends either way. */
    method HandleJoinServer(store: Modal, response: Fetch<string>) returns (navigate: Option<string>)
      modifies this, store
      ensures !isLoading
      ensures servers == old(servers) && searchQuery == old(searchQuery)
      ensures response.Ok? ==> navigate == Some("/servers/" + response.value) && store.State() == Closed(old(store.State()))
      ensures !response.Ok? ==> navigate.None? && store.State() == old(store.State())
    {
      isLoading := true;
      if response.Ok? {
        store.OnClose();
        navigate := Some("/servers/" + response.value);
      } else {
        navigate := None;
      }
      isLoading := false;
    }

    /** What the dialog lists. */
    function Shown(): seq<PublicServer>
      reads this
    {
      FilteredServers(servers, searchQuery)
    }
  }
}
