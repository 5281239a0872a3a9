/** The load triggers of src/pages/message/chat/sidebar/conversation-list.tsx: the
    scroll handler asks for the next page near the bottom of the list, and an
    effect asks for it when the loaded entries do not fill the viewport. */
module ConversationList {

  /** How close to the bottom, in pixels, the scroll position must come. */
  const BottomSlack := 50

  /** The distance still to scroll is at most the viewport height plus the slack. */
  function NearBottom(scrollHeight: int, scrollTop: int, clientHeight: int): (r: bool)
    ensures r <==> scrollTop + clientHeight + BottomSlack >= scrollHeight
  {
    scrollHeight - scrollTop <= clientHeight + BottomSlack
  }

  /** handleScroll calls loadMore. */
  function ScrollLoads(hasMore: bool, loading: bool, scrollHeight: int, scrollTop: int, clientHeight: int): (r: bool)
    ensures r <==> hasMore && !loading && scrollTop >= scrollHeight - clientHeight - BottomSlack
  {
    hasMore && !loading && NearBottom(scrollHeight, scrollTop, clientHeight)
  }

  /** The auto-fill effect schedules loadMore: the element is mounted, no load is
      running, more pages exist, the content cannot scroll and something is listed. */
  function AutoFills(mounted: bool, loading: bool, hasMore: bool, scrollHeight: int, clientHeight: int, listLength: nat): (r: bool)
    ensures r ==> scrollHeight <= clientHeight && listLength > 0
  {
    if !mounted || loading || !hasMore then false
    else
      var scrollable := scrollHeight > clientHeight;
      !scrollable && listLength > 0
  }

  /** Neither trigger fires while a page is loading or once the list is exhausted. */
  lemma NoLoadWhileBusyOrExhausted(mounted: bool, loading: bool, hasMore: bool, scrollHeight: int,
                                   scrollTop: int, clientHeight: int, listLength: nat)
    requires loading || !hasMore
    ensures !ScrollLoads(hasMore, loading, scrollHeight, scrollTop, clientHeight)
    ensures !AutoFills(mounted, loading, hasMore, scrollHeight, clientHeight, listLength)
  {
  }

  /** Scrolling further down never leaves the near-bottom zone. */
  lemma NearBottomMonotone(scrollHeight: int, scrollTop: int, scrollTop': int, clientHeight: int)
    requires scrollTop <= scrollTop' && NearBottom(scrollHeight, scrollTop, clientHeight)
    ensures NearBottom(scrollHeight, scrollTop', clientHeight)
  {
  }

  /** A list whose content does not overflow is already near its bottom, so on
      such a list the scroll trigger and auto-fill agree whenever something is listed. */
  lemma UnscrollableIsNearBottom(scrollHeight: int, clientHeight: int, listLength: nat, hasMore: bool, loading: bool)
    requires scrollHeight <= clientHeight && listLength > 0
    ensures AutoFills(true, loading, hasMore, scrollHeight, clientHeight, listLength)
            == ScrollLoads(hasMore, loading, scrollHeight, 0, clientHeight)
  {
  }
}
