/**
 * The messages page (src/pages/MessagesPage.tsx): the filter read from and written
 * back to the URL, the status → channel → search filter chain, the props it hands
 * to the message list, and the channels offered in the channel picker.
 */
module MessagesPage {
  import opened Wrappers
  import opened Types
  import opened Seqs
  import opened Text
  import opened Store
  import opened MessageList

  // ----- URL -----

  /** `params.get("filter") || "all"`: a missing or empty parameter means "all". */
  function UrlFilter(param: Option<string>): (r: string)
    ensures Present(param) ==> r == param.value
    ensures !Present(param) ==> r == "all"
  {
    if Present(param) then param.value else "all"
  }

  /** The `filter` parameter the page writes back: set exactly when the filter is not "all". */
  function UrlParam(filter: string): (r: Option<string>)
    ensures r.Some? <==> filter != "all"
    ensures r.Some? ==> r.value == filter
  {
    if filter != "all" then Some(filter) else None
  }

  /** Writing the filter to the URL and reading it back gives the same filter, unless it is the empty string. */
  lemma UrlRoundTrip(filter: string)
    ensures filter != "" ==> UrlFilter(UrlParam(filter)) == filter
    ensures filter == "" ==> UrlFilter(UrlParam(filter)) == "all"
    ensures UrlParam(UrlFilter(None)) == None
  {
  }

  // ----- the filter chain -----

  function StatusHit(filter: string): Message -> bool {
    if filter == "unread" then (m: Message) => m.status == Unread
    else if filter == "starred" then (m: Message) => m.isStarred
    else if filter == "archived" then (m: Message) => m.status == Archived
    else (m: Message) => true
  }

  function ChannelHit(channelFilter: string): Message -> bool {
    if channelFilter != "all" then (m: Message) => m.channelId == channelFilter
    else (m: Message) => true
  }

  /** The search: the lower-cased term occurs in the lower-cased content or sender name. */
  predicate Matches(m: Message, term: string) {
    Contains(Lower(m.content), Lower(term)) || Contains(Lower(m.senderName), Lower(term))
  }

  function SearchHit(searchTerm: string): Message -> bool {
    if searchTerm != "" then (m: Message) => Matches(m, searchTerm)
    else (m: Message) => true
  }

  /** All three conditions at once. */
  function PageHit(filter: string, channelFilter: string, searchTerm: string): Message -> bool {
    (m: Message) => StatusHit(filter)(m) && ChannelHit(channelFilter)(m) && SearchHit(searchTerm)(m)
  }

  /** `filteredMessages`: the status filter, then the channel filter, then the search, each applied only when set. */
  function PageFilter(ms: seq<Message>, filter: string, channelFilter: string, searchTerm: string): (r: seq<Message>)
    ensures |r| <= |ms|
    ensures forall m | m in r :: m in ms
  {
    var byStatus :=
      if filter == "unread" || filter == "starred" || filter == "archived" then Filter(StatusHit(filter), ms) else ms;
    var byChannel := if channelFilter != "all" then Filter(ChannelHit(channelFilter), byStatus) else byStatus;
    if searchTerm != "" then Filter(SearchHit(searchTerm), byChannel) else byChannel
  }

  /**
   * The chain is a single filter by the three conditions: the result is a subsequence
   * of the messages, and a message is in it exactly when it has the selected status,
   * is in the selected channel, and matches the search term.
   */
  lemma PageFilterSpec(ms: seq<Message>, filter: string, channelFilter: string, searchTerm: string)
    ensures PageFilter(ms, filter, channelFilter, searchTerm) == Filter(PageHit(filter, channelFilter, searchTerm), ms)
    ensures IsSubsequence(PageFilter(ms, filter, channelFilter, searchTerm), ms)
    ensures forall m :: m in PageFilter(ms, filter, channelFilter, searchTerm) <==>
      && m in ms
      && (filter == "unread" ==> m.status == Unread)
      && (filter == "starred" ==> m.isStarred)
      && (filter == "archived" ==> m.status == Archived)
      && (channelFilter != "all" ==> m.channelId == channelFilter)
      && (searchTerm != "" ==> Matches(m, searchTerm))
  {
    var status := StatusHit(filter);
    var channel := ChannelHit(channelFilter);
    var search := SearchHit(searchTerm);
    var statusAndChannel := (m: Message) => status(m) && channel(m);
    var byStatus := if filter == "unread" || filter == "starred" || filter == "archived" then Filter(status, ms) else ms;
    assert byStatus == Filter(status, ms) by {
      if !(filter == "unread" || filter == "starred" || filter == "archived") {
        FilterKeepsAll(status, ms);
      }
    }
    var byChannel := if channelFilter != "all" then Filter(channel, byStatus) else byStatus;
    assert byChannel == Filter(statusAndChannel, ms) by {
      if channelFilter == "all" {
        FilterKeepsAll(channel, byStatus);
      }
      FilterFilter(status, channel, statusAndChannel, ms);
    }
    if searchTerm == "" {
      FilterKeepsAll(search, byChannel);
    }
    FilterFilter(statusAndChannel, search, PageHit(filter, channelFilter, searchTerm), ms);
    FilterIsSubsequence(PageHit(filter, channelFilter, searchTerm), ms);
    forall m ensures m in PageFilter(ms, filter, channelFilter, searchTerm) <==>
      m in ms && PageHit(filter, channelFilter, searchTerm)(m) {
    }
    forall m ensures PageHit(filter, channelFilter, searchTerm)(m) <==>
      && (filter == "unread" ==> m.status == Unread)
      && (filter == "starred" ==> m.isStarred)
      && (filter == "archived" ==> m.status == Archived)
      && (channelFilter != "all" ==> m.channelId == channelFilter)
      && (searchTerm != "" ==> Matches(m, searchTerm)) {
      PageHitMeans(filter, channelFilter, searchTerm, m);
    }
  }

  /** One message against the three conditions. */
  lemma PageHitMeans(filter: string, channelFilter: string, searchTerm: string, m: Message)
    ensures PageHit(filter, channelFilter, searchTerm)(m) <==>
      && (filter == "unread" ==> m.status == Unread)
      && (filter == "starred" ==> m.isStarred)
      && (filter == "archived" ==> m.status == Archived)
      && (channelFilter != "all" ==> m.channelId == channelFilter)
      && (searchTerm != "" ==> Matches(m, searchTerm))
  {
    assert StatusHit(filter)(m) <==>
      && (filter == "unread" ==> m.status == Unread)
      && (filter == "starred" ==> m.isStarred)
      && (filter == "archived" ==> m.status == Archived)
    by {
      // The three filter names differ in length, so at most one of them is selected.
      assert |"unread"| == 6 && |"starred"| == 7 && |"archived"| == 8;
      if filter == "unread" {
      } else if filter == "starred" {
      } else if filter == "archived" {
      }
    }
    assert ChannelHit(channelFilter)(m) <==> (channelFilter != "all" ==> m.channelId == channelFilter) by {
      if channelFilter != "all" {
      }
    }
    assert SearchHit(searchTerm)(m) <==> (searchTerm != "" ==> Matches(m, searchTerm)) by {
      if searchTerm != "" {
      }
    }
  }

  /** With filter "all", channel "all" and no search term the page shows every message. */
  lemma NoFilterShowsAll(ms: seq<Message>)
    ensures PageFilter(ms, "all", "all", "") == ms
  {
  }

  /** The `filter` prop the page passes to the list. */
  function ListKind(filter: string): Option<string> {
    if filter != "all" then Some(filter) else None
  }

  /** The `channelId` prop the page passes to the list. */
  function ListChannel(channelFilter: string): Option<string> {
    if channelFilter != "all" then Some(channelFilter) else None
  }

  /** The list's own filters, fed the page's props, keep everything the page already filtered. */
  lemma ListRefilterIsIdentity(ms: seq<Message>, filter: string, channelFilter: string, searchTerm: string)
    ensures ListFilter(PageFilter(ms, filter, channelFilter, searchTerm), ListChannel(channelFilter), ListKind(filter))
         == PageFilter(ms, filter, channelFilter, searchTerm)
  {
    var shown := PageFilter(ms, filter, channelFilter, searchTerm);
    var page := PageHit(filter, channelFilter, searchTerm);
    var list := ListHit(ListChannel(channelFilter), ListKind(filter));
    PageFilterSpec(ms, filter, channelFilter, searchTerm);
    assert shown == Filter(page, ms);
    forall m | m in shown ensures list(m) {
      assert page(m);
      PageHitPassesList(filter, channelFilter, searchTerm, m);
    }
    FilterKeepsAll(list, shown);
  }

  lemma PageHitPassesList(filter: string, channelFilter: string, searchTerm: string, m: Message)
    requires PageHit(filter, channelFilter, searchTerm)(m)
    ensures ListHit(ListChannel(channelFilter), ListKind(filter))(m)
  {
    assert StatusHit(filter)(m) && ChannelHit(channelFilter)(m);
    if channelFilter != "all" {
      assert m.channelId == channelFilter;
    }
    assert ChannelFilter(ListChannel(channelFilter))(m);
    if filter == "unread" {
      assert m.status == Unread;
    } else if filter == "starred" {
      assert m.isStarred;
    } else if filter == "archived" {
      assert m.status == Archived;
    }
    assert KindFilter(ListKind(filter))(m);
  }
}
