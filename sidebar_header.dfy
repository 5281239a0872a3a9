/** The sidebar header of src/pages/message/chat/sidebar/sidebar-header.tsx: the
    unread badge on the "all" tab counts the listed conversations that are still
    active (status below 2) and flagged unread. */
module SidebarHeader {
  import opened Base
  import opened ChatTypes
  import ChatConversations

  /** The tab whose trigger carries the badge. */
  const AllTab := "-1"

  predicate CountsAsUnread(c: Conversation)
  {
    c.status < 2 && c.unread
  }

  /** unreadCount: the length of the filtered list. */
  function UnreadCount(list: seq<Conversation>): (r: nat)
    ensures r <= |list|
  {
    var counted := Filter(CountsAsUnread, list);
    SubseqMembers(counted, list);
    |counted|
  }

  lemma UnreadCountConcat(a: seq<Conversation>, b: seq<Conversation>)
    ensures UnreadCount(a + b) == UnreadCount(a) + UnreadCount(b)
  {
    FilterConcat(CountsAsUnread, a, b);
  }

  /** A closed or archived conversation (status 2 or more) adds nothing to the
      count, wherever it sits in the list and whatever its flag. */
  lemma ClosedNeverCounts(a: seq<Conversation>, c: Conversation, b: seq<Conversation>)
    requires c.status >= 2
    ensures UnreadCount(a + [c] + b) == UnreadCount(a + b)
  {
    UnreadCountConcat(a + [c], b);
    UnreadCountConcat(a, [c]);
    UnreadCountConcat(a, b);
    FilterDropsSingleton(CountsAsUnread, c);
  }

  /** The count is positive exactly when some listed conversation is active and unread. */
  lemma UnreadCountPositiveIff(list: seq<Conversation>)
    ensures UnreadCount(list) > 0 <==> exists i :: 0 <= i < |list| && list[i].status < 2 && list[i].unread
  {
    var counted := Filter(CountsAsUnread, list);
    if |counted| > 0 {
      SubseqMembers(counted, list);
      assert counted[0] in list;
      var i :| 0 <= i < |list| && list[i] == counted[0];
      assert CountsAsUnread(list[i]);
    }
    if exists i :: 0 <= i < |list| && list[i].status < 2 && list[i].unread {
      var i :| 0 <= i < |list| && list[i].status < 2 && list[i].unread;
      assert CountsAsUnread(list[i]);
      assert list[i] in counted;
    }
  }

  /** The badge is rendered on the "-1" trigger only, and only for a positive count. */
  function ShowBadge(tabValue: string, count: int): (r: bool)
    ensures r ==> tabValue == AllTab
  {
    tabValue == AllTab && count > 0
  }

  /** Whether a trigger shows the badge, in terms of the list itself. */
  lemma BadgeIffUnreadActive(tabValue: string, list: seq<Conversation>)
    ensures ShowBadge(tabValue, UnreadCount(list)) <==>
      tabValue == AllTab && exists i :: 0 <= i < |list| && list[i].status < 2 && list[i].unread
  {
    UnreadCountPositiveIff(list);
  }

  // ---------------------------------------------------------------------------
  // The two versions of the unread toggle, seen through the badge

  /** As written, the toggle writes a key the count does not read: clearing the
      unread state of a conversation leaves the count exactly as it was. */
  lemma {:induction false} AsWrittenToggleLeavesCount(list: seq<Conversation>, id: string, flag: bool)
    ensures UnreadCount(ChatConversations.SetUnreadKeyAsWritten(list, id, flag)) == UnreadCount(list)
  {
    if list != [] {
      var r := ChatConversations.SetUnreadKeyAsWritten(list, id, flag);
      assert r[1..] == ChatConversations.SetUnreadKeyAsWritten(list[1..], id, flag);
      AsWrittenToggleLeavesCount(list[1..], id, flag);
      UnreadCountCons(r);
      UnreadCountCons(list);
    }
  }

  /** The input that shows it: one active unread conversation, selected (which
      clears its unread state), still counts one. */
  lemma AsWrittenSelectionKeepsBadge()
    ensures var c := Conversation("a", "guest", StatusUnreplied, "", "", true, None);
      && UnreadCount([c]) == 1
      && UnreadCount(ChatConversations.SetUnreadKeyAsWritten([c], "a", false)) == 1
  {
    var c := Conversation("a", "guest", StatusUnreplied, "", "", true, None);
    AsWrittenToggleLeavesCount([c], "a", false);
    assert [c][1..] == [];
    assert Filter(CountsAsUnread, [c]) == [c];
  }

  /** The count of a list is its head's contribution plus the count of its tail. */
  lemma UnreadCountCons(list: seq<Conversation>)
    requires list != []
    ensures UnreadCount(list) == (if CountsAsUnread(list[0]) then 1 else 0) + UnreadCount(list[1..])
  {
    assert list == [list[0]] + list[1..];
    UnreadCountConcat([list[0]], list[1..]);
    assert [list[0]][1..] == [];
  }

  /** Clearing an id acts on the head and on the tail separately. */
  lemma ClearingCons(list: seq<Conversation>, id: string)
    requires list != []
    ensures var r := ChatConversations.SetUnread(list, id, false);
      r != [] && r[0] == (if list[0].id == id then list[0].(unread := false) else list[0])
      && r[1..] == ChatConversations.SetUnread(list[1..], id, false)
  {
  }

  /** With the corrected toggle, clearing an id leaves exactly the count of the
      other conversations. */
  lemma {:induction false} ClearingCountsOnlyOthers(list: seq<Conversation>, id: string)
    ensures UnreadCount(ChatConversations.SetUnread(list, id, false)) == UnreadCount(ChatConversations.Others(list, id))
  {
    if list != [] {
      var r := ChatConversations.SetUnread(list, id, false);
      var p := (c: Conversation) => !ChatConversations.HasId(c, id);
      ClearingCons(list, id);
      ClearingCountsOnlyOthers(list[1..], id);
      UnreadCountCons(r);
      assert list == [list[0]] + list[1..];
      FilterConcat(p, [list[0]], list[1..]);
      UnreadCountConcat(Filter(p, [list[0]]), Filter(p, list[1..]));
      assert [list[0]][1..] == [];
    }
  }

  /** With the corrected toggle, clearing an id that was counted lowers the count. */
  lemma {:induction false} ClearingLowersCount(list: seq<Conversation>, id: string)
    requires exists i :: 0 <= i < |list| && list[i].id == id && CountsAsUnread(list[i])
    ensures UnreadCount(ChatConversations.SetUnread(list, id, false)) < UnreadCount(list)
  {
    var r := ChatConversations.SetUnread(list, id, false);
    ClearingCons(list, id);
    UnreadCountCons(r);
    UnreadCountCons(list);
    if list[0].id == id && CountsAsUnread(list[0]) {
      CorrectedToggleNeverRaises(list[1..], id);
    } else {
      var i :| 0 <= i < |list| && list[i].id == id && CountsAsUnread(list[i]);
      assert list[1..][i - 1] == list[i];
      ClearingLowersCount(list[1..], id);
    }
  }

  /** Clearing never raises the count. */
  lemma {:induction false} CorrectedToggleNeverRaises(list: seq<Conversation>, id: string)
    ensures UnreadCount(ChatConversations.SetUnread(list, id, false)) <= UnreadCount(list)
  {
    if list != [] {
      var r := ChatConversations.SetUnread(list, id, false);
      ClearingCons(list, id);
      CorrectedToggleNeverRaises(list[1..], id);
      UnreadCountCons(r);
      UnreadCountCons(list);
    }
  }
}
