/** The conversation store of src/pages/message/chat/sidebar/useChatConversations.ts:
    an eagerly loaded active set (status below 2) filtered on the client by tab
    and keyword, a paginated closed list for tab "2", and the updates the sidebar
    and the live feed apply to the active set (archive, the unread toggle and the
    move-to-front summary update). */
module ChatConversations {
  import opened Base
  import opened ChatTypes
  import PaginatedLoader

  /** The closed list is fetched twenty at a time. */
  const ClosedPageSize := 20

  /** Tab "2" is the paginated closed list; "-1", "0" and "1" show the active set. */
  const ClosedTab := "2"

  predicate IsStaticTab(tab: string)
  {
    tab == "-1" || tab == "0" || tab == "1"
  }

  // ---------------------------------------------------------------------------
  // Client-side filtering of the active set

  predicate HasStatus(c: Conversation, status: int)
  {
    c.status == status
  }

  /** The tab filter: "0" and "1" keep that status, every other tab keeps all. */
  function ByTab(all: seq<Conversation>, tab: string): seq<Conversation>
  {
    if tab == "0" then Filter((c: Conversation) => HasStatus(c, 0), all)
    else if tab == "1" then Filter((c: Conversation) => HasStatus(c, 1), all)
    else all
  }

  /** The lower-cased name contains the lower-cased keyword. */
  predicate MatchesKeyword(c: Conversation, keyword: string)
  {
    Includes(ToLower(c.name), ToLower(keyword))
  }

  predicate PassesTab(c: Conversation, tab: string)
  {
    (tab == "0" ==> c.status == 0) && (tab == "1" ==> c.status == 1)
  }

  /** The tab filter keeps, in order and with every copy, exactly the entries that pass the tab. */
  lemma ByTabSpec(all: seq<Conversation>, tab: string)
    ensures IsSubseq(ByTab(all, tab), all)
    ensures forall i :: 0 <= i < |ByTab(all, tab)| ==> PassesTab(ByTab(all, tab)[i], tab)
    ensures forall i :: 0 <= i < |all| && PassesTab(all[i], tab) ==> all[i] in ByTab(all, tab)
    ensures forall x :: multiset(ByTab(all, tab))[x] == if PassesTab(x, tab) then multiset(all)[x] else 0
  {
    if tab == "0" {
      FilterCounts((c: Conversation) => HasStatus(c, 0), all);
    } else if tab == "1" {
      FilterCounts((c: Conversation) => HasStatus(c, 1), all);
    } else {
      SubseqRefl(all);
    }
  }

  /** The keyword filter applied to the tab-filtered entries. */
  lemma KeywordStage(all: seq<Conversation>, tab: string, keyword: string)
    ensures var base := ByTab(all, tab);
      var r := Filter((c: Conversation) => MatchesKeyword(c, keyword), base);
      && IsSubseq(r, all)
      && (forall i :: 0 <= i < |r| ==> PassesTab(r[i], tab) && MatchesKeyword(r[i], keyword))
      && (forall i :: 0 <= i < |all| && PassesTab(all[i], tab) && MatchesKeyword(all[i], keyword) ==> all[i] in r)
      && (forall x :: multiset(r)[x] == if PassesTab(x, tab) && MatchesKeyword(x, keyword) then multiset(all)[x] else 0)
  {
    var base := ByTab(all, tab);
    ByTabSpec(all, tab);
    var r := Filter((c: Conversation) => MatchesKeyword(c, keyword), base);
    FilterCounts((c: Conversation) => MatchesKeyword(c, keyword), base);
    SubseqTransitive(r, base, all);
    SubseqMembers(r, base);
    forall i | 0 <= i < |r|
      ensures PassesTab(r[i], tab)
    {
      assert r[i] in base;
    }
  }

  /** activeList: the tab filter, then the keyword filter when the keyword is not blank. */
  function ActiveList(all: seq<Conversation>, tab: string, keyword: string): (r: seq<Conversation>)
    ensures IsSubseq(r, all)
    ensures forall i :: 0 <= i < |r| ==> PassesTab(r[i], tab)
    ensures Trim(keyword) != "" ==> forall i :: 0 <= i < |r| ==> MatchesKeyword(r[i], keyword)
    ensures forall i :: 0 <= i < |all| && PassesTab(all[i], tab) && (Trim(keyword) == "" || MatchesKeyword(all[i], keyword)) ==> all[i] in r
    ensures forall x :: multiset(r)[x] == if PassesTab(x, tab) && (Trim(keyword) == "" || MatchesKeyword(x, keyword)) then multiset(all)[x] else 0
  {
    ByTabSpec(all, tab);
    if Trim(keyword) != "" then
      KeywordStage(all, tab, keyword);
      Filter((c: Conversation) => MatchesKeyword(c, keyword), ByTab(all, tab))
    else ByTab(all, tab)
  }

  /** With tab "-1" and a blank keyword the whole active set is shown, in order. */
  lemma AllTabShowsEverything(all: seq<Conversation>, keyword: string)
    requires Trim(keyword) == ""
    ensures ActiveList(all, "-1", keyword) == all
  {
  }

  /** The list the sidebar shows. */
  function VisibleList(tab: string, keyword: string, activeAll: seq<Conversation>, closedData: seq<Conversation>): (r: seq<Conversation>)
    ensures tab == ClosedTab ==> r == closedData
    ensures tab != ClosedTab ==> r == ActiveList(activeAll, tab, keyword)
    ensures tab != ClosedTab ==> IsSubseq(r, activeAll)
  {
    if tab == ClosedTab then closedData else ActiveList(activeAll, tab, keyword)
  }

  /** hasMore: only the closed list is paginated. */
  function HasMore(tab: string, closedHasMore: bool): (r: bool)
    ensures r ==> tab == ClosedTab
    ensures tab == ClosedTab ==> r == closedHasMore
  {
    if tab == ClosedTab then closedHasMore else false
  }

  /** loading: the closed list's flag on tab "2", the active fetch's elsewhere. */
  function Loading(tab: string, closedLoading: bool, activeLoading: bool): (r: bool)
    ensures tab == ClosedTab ==> r == closedLoading
    ensures tab != ClosedTab ==> r == activeLoading
  {
    if tab == ClosedTab then closedLoading else activeLoading
  }

  // ---------------------------------------------------------------------------
  // Updates of the active set

  predicate HasId(c: Conversation, id: string)
  {
    c.id == id
  }

  /** The entries whose id is not `id`, in order. */
  function Others(all: seq<Conversation>, id: string): seq<Conversation>
  {
    Filter((c: Conversation) => !HasId(c, id), all)
  }

  /** archiveConversation on a static tab: `prev.filter(c => c.id !== id)`. */
  function Archived(all: seq<Conversation>, id: string): (r: seq<Conversation>)
    ensures IsSubseq(r, all)
    ensures forall i :: 0 <= i < |r| ==> r[i].id != id
    ensures forall i :: 0 <= i < |all| && all[i].id != id ==> all[i] in r
    ensures (forall i :: 0 <= i < |all| ==> all[i].id != id) ==> r == all
    ensures forall x :: multiset(r)[x] == if x.id != id then multiset(all)[x] else 0
  {
    FilterCounts((c: Conversation) => !HasId(c, id), all);
    Others(all, id)
  }

  /** Every entry whose id is `id` gets its unread flag set to `flag`. This is the
      corrected toggle: it writes the `is_unread` field the badge and the dot read. */
  function SetUnread(all: seq<Conversation>, id: string, flag: bool): (r: seq<Conversation>)
    ensures |r| == |all|
    ensures forall i :: 0 <= i < |all| ==> r[i] == if all[i].id == id then all[i].(unread := flag) else all[i]
  {
    if all == [] then []
    else [if all[0].id == id then all[0].(unread := flag) else all[0]] + SetUnread(all[1..], id, flag)
  }

  /** The toggle as written: `{ ...c, isUnread }` writes the camel-case key, which
      nothing reads; `is_unread` keeps its old value. */
  function SetUnreadKeyAsWritten(all: seq<Conversation>, id: string, flag: bool): (r: seq<Conversation>)
    ensures |r| == |all|
    ensures forall i :: 0 <= i < |all| ==> r[i] == if all[i].id == id then all[i].(unreadKey := Some(flag)) else all[i]
  {
    if all == [] then []
    else [if all[0].id == id then all[0].(unreadKey := Some(flag)) else all[0]] + SetUnreadKeyAsWritten(all[1..], id, flag)
  }

  /** The fields a summary update may carry (`Partial<Conversation>` without id). */
  datatype SummaryUpdate = SummaryUpdate(name: Option<string>, status: Option<int>, lastMessage: Option<string>, unread: Option<bool>)

  /** `{ ...c, ...updates, lastMessageAt: stamp }`; `stamp` is the formatted time of the update. */
  function Apply(c: Conversation, u: SummaryUpdate, stamp: string): (r: Conversation)
  {
    Conversation(
      c.id,
      if u.name.Some? then u.name.value else c.name,
      if u.status.Some? then u.status.value else c.status,
      if u.lastMessage.Some? then u.lastMessage.value else c.lastMessage,
      stamp,
      if u.unread.Some? then u.unread.value else c.unread,
      c.unreadKey)
  }

  /** The `map` step of updateConversationById. */
  function ApplyToId(all: seq<Conversation>, id: string, u: SummaryUpdate, stamp: string): (r: seq<Conversation>)
    ensures |r| == |all|
    ensures forall i :: 0 <= i < |all| ==> r[i] == if all[i].id == id then Apply(all[i], u, stamp) else all[i]
  {
    if all == [] then []
    else [if all[0].id == id then Apply(all[0], u, stamp) else all[0]] + ApplyToId(all[1..], id, u, stamp)
  }

  /** Entries other than `id` are untouched by the map step. */
  lemma {:induction false} ApplyKeepsOthers(all: seq<Conversation>, id: string, u: SummaryUpdate, stamp: string)
    ensures Others(ApplyToId(all, id, u, stamp), id) == Others(all, id)
  {
    if all != [] {
      var r := ApplyToId(all, id, u, stamp);
      assert r == [r[0]] + r[1..] && all == [all[0]] + all[1..];
      assert r[1..] == ApplyToId(all[1..], id, u, stamp);
      ApplyKeepsOthers(all[1..], id, u, stamp);
      FilterConcat((c: Conversation) => !HasId(c, id), [r[0]], r[1..]);
      FilterConcat((c: Conversation) => !HasId(c, id), [all[0]], all[1..]);
    }
  }

  /** updateConversationById: apply the update, then splice the first matching
      entry out and put it in front. */
  function Promote(all: seq<Conversation>, id: string, u: SummaryUpdate, stamp: string): (r: seq<Conversation>)
    ensures (exists i :: 0 <= i < |all| && all[i].id == id) ==> |r| > 0 && r[0].id == id
  {
    var updated := ApplyToId(all, id, u, stamp);
    match FindIndex((c: Conversation) => HasId(c, id), updated)
    case None => updated
    case Some(k) => [updated[k]] + (updated[..k] + updated[k + 1..])
  }

  /** Move to front loses and duplicates nothing: the result is a permutation of
      the updated list. */
  lemma PromotePermutes(all: seq<Conversation>, id: string, u: SummaryUpdate, stamp: string)
    ensures |Promote(all, id, u, stamp)| == |all|
    ensures multiset(Promote(all, id, u, stamp)) == multiset(ApplyToId(all, id, u, stamp))
  {
    var updated := ApplyToId(all, id, u, stamp);
    match FindIndex((c: Conversation) => HasId(c, id), updated)
    case None =>
    case Some(k) => MoveToFrontPermutes(updated, k);
  }

  /** An id that is not in the list leaves the list as it was. */
  lemma PromoteAbsent(all: seq<Conversation>, id: string, u: SummaryUpdate, stamp: string)
    requires forall i :: 0 <= i < |all| ==> all[i].id != id
    ensures Promote(all, id, u, stamp) == all
  {
    var updated := ApplyToId(all, id, u, stamp);
    assert forall i :: 0 <= i < |all| ==> updated[i] == all[i];
  }

  /** The first entry with that id, updated, is in front afterwards. */
  lemma PromoteFront(all: seq<Conversation>, id: string, u: SummaryUpdate, stamp: string, k: nat)
    requires k < |all| && all[k].id == id
    requires forall j :: 0 <= j < k ==> all[j].id != id
    ensures Promote(all, id, u, stamp)[0] == Apply(all[k], u, stamp)
  {
    var updated := ApplyToId(all, id, u, stamp);
    FindIndexFirst((c: Conversation) => HasId(c, id), updated, k);
  }

  /** Everything other than the updated conversation keeps its relative order. */
  lemma PromoteKeepsOthersInOrder(all: seq<Conversation>, id: string, u: SummaryUpdate, stamp: string)
    ensures Others(Promote(all, id, u, stamp), id) == Others(all, id)
  {
    var updated := ApplyToId(all, id, u, stamp);
    ApplyKeepsOthers(all, id, u, stamp);
    match FindIndex((c: Conversation) => HasId(c, id), updated)
    case None =>
    case Some(k) =>
      assert updated[k].id == id;
      FilterMoveToFront((c: Conversation) => !HasId(c, id), updated, k);
  }

  // ---------------------------------------------------------------------------
  // The hook's state

  class ConversationStore {
    /** The whole active set as fetched, later updated in place. */
    var activeAll: seq<Conversation>
    var activeLoading: bool
    var didLoadActive: bool
    /** The tab the hook is rendered with. */
    var tab: string
    /** The paginated closed list, enabled only on tab "2". */
    const closed: PaginatedLoader.Loader<Conversation>

    ghost predicate Valid()
      reads this, closed
    {
      && closed.enabled == (tab == ClosedTab)
      && closed.pageSize == ClosedPageSize
      && closed.autoLoad && closed.autoLoadOnQueryChange
    }

    /** The state before the mount effects run (LoadActive and SetTab model them). */
    constructor (tab: string)
      ensures Valid() && fresh(closed)
      ensures this.tab == tab && activeAll == [] && !activeLoading && !didLoadActive
      ensures closed.State() == PaginatedLoader.Initial()
    {
      activeAll, activeLoading, didLoadActive := [], false, false;
      this.tab := tab;
      closed := new PaginatedLoader.Loader<Conversation>(PaginatedLoader.Options(Some(ClosedPageSize), Some(true), Some(true), Some(tab == ClosedTab)));
    }

    /** `list`. */
    function List(keyword: string): seq<Conversation>
      reads this, closed
    {
      VisibleList(tab, keyword, activeAll, closed.data)
    }

    /** The one-time fetch of the whole active set (status "<2", pageSize -1) that
        runs on a static tab; a rejected fetch leaves it to be retried. Returns
        whether a fetch was issued. */
    method LoadActive(response: Response<seq<Conversation>>) returns (requested: bool)
      requires Valid()
      modifies this
      ensures Valid() && tab == old(tab)
      ensures requested == (IsStaticTab(tab) && !old(didLoadActive))
      ensures !requested ==> activeAll == old(activeAll) && didLoadActive == old(didLoadActive) && activeLoading == old(activeLoading)
      ensures requested ==>
        && activeAll == (if response.Resolved? && response.list.Some? then response.list.value else old(activeAll))
        && didLoadActive == response.Resolved?
        && !activeLoading
    {
      requested := IsStaticTab(tab) && !didLoadActive;
      if !requested {
        return;
      }
      activeLoading := true;
      if response.Resolved? {
        if response.list.Some? {
          activeAll := response.list.value;
        }
        didLoadActive := true;
      }
      activeLoading := false;
    }

    /** The tab changes: the closed list is enabled exactly on tab "2" and loads
        its first page when it becomes enabled. */
    method SetTab(newTab: string, closedOutcome: Option<seq<Conversation>>) returns (request: Option<int>)
      requires Valid()
      modifies this, closed
      ensures Valid() && tab == newTab
      ensures activeAll == old(activeAll) && didLoadActive == old(didLoadActive)
      ensures closed.State() == if newTab == ClosedTab && old(tab) != ClosedTab
                                then PaginatedLoader.AfterLoadMore(old(closed.State()), true, ClosedPageSize, closedOutcome)
                                else old(closed.State())
    {
      tab := newTab;
      request := closed.SetEnabled(newTab == ClosedTab, closedOutcome);
    }

    /** loadMore: delegates to the closed list on tab "2" only. */
    method LoadMore(closedOutcome: Option<seq<Conversation>>) returns (request: Option<int>)
      requires Valid()
      modifies closed
      ensures Valid()
      ensures tab != ClosedTab ==> request.None? && closed.State() == old(closed.State())
      ensures tab == ClosedTab ==>
        closed.State() == PaginatedLoader.AfterLoadMore(old(closed.State()), true, ClosedPageSize, closedOutcome)
    {
      request := None;
      if tab == ClosedTab {
        request := closed.LoadMore(closedOutcome);
      }
    }

    /** refresh: resets the closed list on tab "2", does nothing elsewhere. */
    method Refresh()
      requires Valid()
      modifies closed
      ensures Valid()
      ensures closed.State() == if tab == ClosedTab then PaginatedLoader.AfterReset(old(closed.State()), true) else old(closed.State())
    {
      if tab == ClosedTab {
        closed.Reset();
      }
    }

    /** archiveConversation: the backend is told status 3 (whatever the tab), then
        on a static tab the entry leaves the active set. `ack` is false when the
        update request threw, which skips the local change. */
    method ArchiveConversation(id: string, ack: bool)
      requires Valid()
      modifies this
      ensures Valid() && tab == old(tab) && didLoadActive == old(didLoadActive)
      ensures activeAll == if ack && IsStaticTab(tab) then Archived(old(activeAll), id) else old(activeAll)
    {
      if !ack {
        return;
      }
      if IsStaticTab(tab) {
        activeAll := Archived(activeAll, id);
      }
    }

    /** markIsUnRead(id, isUnread): nothing for an id outside the active set;
        otherwise the backend is written only when clearing (isUnread false), and
        then the flag of that id is set. Returns whether the backend was written;
        `ack` is false when that write threw, which skips the local change. */
    method MarkIsUnread(id: string, isUnread: bool, ack: bool) returns (wrote: bool)
      requires Valid()
      modifies this
      ensures Valid() && tab == old(tab) && didLoadActive == old(didLoadActive)
      ensures var found := exists i :: 0 <= i < |old(activeAll)| && old(activeAll)[i].id == id;
        && wrote == (found && !isUnread)
        && activeAll == if found && (isUnread || ack) then SetUnread(old(activeAll), id, isUnread) else old(activeAll)
    {
      var index := FindIndex((c: Conversation) => HasId(c, id), activeAll);
      wrote := false;
      if index.None? {
        return;
      }
      if !isUnread {
        wrote := true;
        if !ack {
          return;
        }
      }
      activeAll := SetUnread(activeAll, id, isUnread);
    }

    /** updateConversationById: summary update and move to front. */
    method UpdateConversationById(id: string, u: SummaryUpdate, stamp: string)
      requires Valid()
      modifies this
      ensures Valid() && tab == old(tab) && didLoadActive == old(didLoadActive)
      ensures activeAll == Promote(old(activeAll), id, u, stamp)
    {
      activeAll := Promote(activeAll, id, u, stamp);
    }
  }
}
