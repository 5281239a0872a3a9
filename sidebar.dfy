/** The sidebar of src/pages/message/chat/sidebar/index.tsx: the tab, selection and
    search state, the effect that selects the first listed conversation when none
    is selected and reports the selected item to the parent, and the effect that
    clears the unread state of a newly selected conversation. */
module Sidebar {
  import opened Base
  import opened ChatTypes
  import ChatConversations
  import PaginatedLoader

  /** `list.find(item => item.id === selectedId) || null`. */
  function SelectedItem(list: seq<Conversation>, selectedId: Option<string>): (r: Option<Conversation>)
    ensures r.Some? ==> selectedId == Some(r.value.id) && r.value in list
    ensures r.Some? ==> exists k :: 0 <= k < |list| && list[k] == r.value && forall j :: 0 <= j < k ==> list[j].id != r.value.id
    ensures r.None? <==> selectedId.None? || forall i :: 0 <= i < |list| ==> list[i].id != selectedId.value
  {
    if selectedId.None? then None
    else
      match FindIndex((c: Conversation) => ChatConversations.HasId(c, selectedId.value), list)
      case None => None
      case Some(k) => Some(list[k])
  }

  /** Once the first entry is selected, the next run of the effect reports it. */
  lemma DefaultSelectionIsReported(list: seq<Conversation>)
    requires |list| > 0
    ensures SelectedItem(list, Some(list[0].id)) == Some(list[0])
  {
    var r := SelectedItem(list, Some(list[0].id));
    assert r.Some?;
    var k :| 0 <= k < |list| && list[k] == r.value && forall j :: 0 <= j < k ==> list[j].id != r.value.id;
    assert k == 0;
  }

  class SidebarState {
    var tab: string
    var selectedId: Option<string>
    var search: string
    /** The conversation store the sidebar renders with its tab and search. */
    const store: ChatConversations.ConversationStore

    ghost predicate Valid()
      reads this, store, store.closed
    {
      store.Valid() && store.tab == tab
    }

    constructor ()
      ensures Valid() && fresh(store) && fresh(store.closed)
      ensures tab == "-1" && selectedId.None? && search == ""
      ensures store.activeAll == [] && !store.didLoadActive
    {
      tab, selectedId, search := "-1", None, "";
      store := new ChatConversations.ConversationStore("-1");
    }

    /** The list passed to the header and to the list view. */
    function List(): seq<Conversation>
      reads this, store, store.closed
    {
      store.List(search)
    }

    /** onSelect (setSelectedId) followed by the unread effect, which runs only
        when the selection actually changes and only for a truthy id; `ack` is the
        outcome of the backend write that clearing issues. */
    method Select(id: string, ack: bool)
      requires Valid()
      modifies this, store
      ensures Valid() && tab == old(tab) && search == old(search)
      ensures selectedId == Some(id)
      ensures store.didLoadActive == old(store.didLoadActive)
      ensures store.activeAll ==
        if old(selectedId) != Some(id) && id != "" && ack
           && exists i :: 0 <= i < |old(store.activeAll)| && old(store.activeAll)[i].id == id
        then ChatConversations.SetUnread(old(store.activeAll), id, false)
        else old(store.activeAll)
    {
      if selectedId == Some(id) {
        return;
      }
      selectedId := Some(id);
      if id != "" {
        var _ := store.MarkIsUnread(id, false, ack);
      }
    }

    /** The effect on [list, selectedId]: with no truthy selection and a non-empty
        list the first entry is selected (which in turn runs the unread effect);
        the item reported to the parent is looked up with the selection the
        effect saw, so the freshly selected entry is reported on the next run. */
    method SyncSelection(ack: bool) returns (reported: Option<Conversation>)
      requires Valid()
      modifies this, store
      ensures Valid() && tab == old(tab) && search == old(search)
      ensures reported == SelectedItem(old(List()), old(selectedId))
      ensures selectedId ==
        if !Present(old(selectedId)) && |old(List())| > 0 then Some(old(List())[0].id) else old(selectedId)
      ensures store.didLoadActive == old(store.didLoadActive)
      ensures !Present(old(selectedId)) && |old(List())| > 0 ==>
        var id := old(List())[0].id;
        store.activeAll ==
          if old(selectedId) != Some(id) && id != "" && ack
             && exists i :: 0 <= i < |old(store.activeAll)| && old(store.activeAll)[i].id == id
          then ChatConversations.SetUnread(old(store.activeAll), id, false)
          else old(store.activeAll)
      ensures Present(old(selectedId)) || |old(List())| == 0 ==> store.activeAll == old(store.activeAll)
    {
      var list := List();
      reported := SelectedItem(list, selectedId);
      if !Present(selectedId) && |list| > 0 {
        Select(list[0].id, ack);
      }
    }

    /** onTabChange: the store follows the tab. */
    method SetTab(newTab: string, closedOutcome: Option<seq<Conversation>>) returns (request: Option<int>)
      requires Valid()
      modifies this, store, store.closed
      ensures Valid() && tab == newTab
      ensures selectedId == old(selectedId) && search == old(search)
      ensures store.activeAll == old(store.activeAll)
      ensures store.closed.State() ==
        if newTab == ChatConversations.ClosedTab && old(tab) != ChatConversations.ClosedTab
        then PaginatedLoader.AfterLoadMore(old(store.closed.State()), true, ChatConversations.ClosedPageSize, closedOutcome)
        else old(store.closed.State())
    {
      tab := newTab;
      request := store.SetTab(newTab, closedOutcome);
    }

    /** onSearchChange. */
    method SetSearch(keyword: string)
      requires Valid()
      modifies this
      ensures Valid() && search == keyword
      ensures tab == old(tab) && selectedId == old(selectedId)
    {
      search := keyword;
    }
  }
}
