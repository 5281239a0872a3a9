# Chat console state logic, modelled in Dafny

This project models the client-side state logic of the esim-client operator
console, a React application for customer chat and bulk SMS tasks. It covers
the following parts:

- **The paginated loader.** A generic cursor that loads the next page, appends
  it and tracks exhaustion.
- **The message cache.** It is keyed by conversation id:
  - older pages are prepended;
  - live messages are appended;
  - optimistic sends go `sending`, then `sent` or `failed`.
- **The sidebar's conversation store.** It holds:
  - the client-side tab and keyword filter;
  - the paginated closed list;
  - archive;
  - the unread toggle;
  - the move-to-front summary update.
- **The sidebar itself.** Default selection, the reported selection, and
  clearing unread on select.
- **The unread badge.**
- **The scroll and auto-fill load triggers.**
- **The message view.** The 180-minute date separators and the message
  classification.
- **The older chat store and chat page.** Move-to-front on send, status
  merging, tab and search filtering, and aborting an image send when the
  upload fails.
- **The table pagination record.**
- **`removeEmptyParams`.**
- **The bulk-task form rules and the bulk-task page.**

Each source file is one module, and two shared modules hold the rest:

- `Base`: `Option`, promise outcomes, `filter`, `findIndex`, `trim`,
  `includes` and `toLowerCase`.
- `ChatTypes`: messages and conversation summaries.

Code that updates state step by step is a class. Its fields are the hook's
state cells, and each method's postcondition ties the new state to a pure
function of the old state and the outcome of the backend call. The lemmas about
those functions carry the properties.

Backend calls, uploads, the WebSocket and the clock never run in the model.
Their results are parameters instead:

- `Option<seq<T>>` for a fetch, with `None` when it threw;
- `Response` for a body whose `list` may be missing;
- `SendOutcome` and `InsertOutcome` for message inserts;
- `ack: bool` for an update request, false when it threw;
- `tempId` and `now` for `Date.now()`.

## Model

| member | source | states |
|---|---|---|
| Base.Filter | src/pages/message/chat/sidebar/useChatConversations.ts:53-54 | `Array.prototype.filter`: the result is a subsequence of the input, everything in it satisfies the predicate, every input element that satisfies it is kept, and an all-passing input comes back unchanged |
| Base.FilterCounts | src/pages/message/chat/sidebar/useChatConversations.ts:53-54 | `filter` keeps multiplicities: a passing value occurs as often in the result as in the input, a failing one not at all |
| Base.FindIndex | src/pages/message/chat/sidebar/useChatConversations.ts:91 | `findIndex`: the index of the first element satisfying the predicate; `None` (the -1) exactly when no element does |
| Base.TrimEmptyIffBlank | src/pages/message/chat/useConversationMessagesCache.ts:114 | `s.trim()` is empty exactly when every character is ECMAScript white space or a line terminator |
| PaginatedLoader.AfterLoadMore | src/hooks/common/usePaginatedLoader.ts:38-53 | the guard (disabled, loading or exhausted) changes nothing; success appends the fetched list in order, advances the page by one, sets initialized and sets hasMore to false for page size -1, otherwise to fetched ≥ page size; failure changes nothing; loading ends false |
| PaginatedLoader.AfterReset | src/hooks/common/usePaginatedLoader.ts:55-61 | when enabled, data is empty, page 1, hasMore true, initialized false, and loading is kept; when disabled nothing changes |
| PaginatedLoader.ReloadIsFreshStart | src/hooks/common/usePaginatedLoader.ts:63-66 | with state read atomically (reset's cells seen by the loadMore that follows), an idle reload behaves as the first load of a fresh cursor, whatever was accumulated |
| PaginatedLoader.ReloadWhileLoadingOnlyClears | src/hooks/common/usePaginatedLoader.ts:63-66 | with state read atomically, a reload while a fetch is in flight only clears the cursor, because the loading guard suppresses its loadMore |
| PaginatedLoader.AfterReloadAsWritten | src/hooks/common/usePaginatedLoader.ts:38-66 | reload as its closures run it: disabled changes nothing; when the rendered cursor is loading or exhausted only the reset happens; otherwise the fetched list becomes the whole data and the page ends at 2 |
| PaginatedLoader.ReloadRequestAsWritten | src/hooks/common/usePaginatedLoader.ts:38-66 | as written, reload requests a page iff the rendered (pre-reset) cursor passes the guard, and the page it requests is the rendered one |
| PaginatedLoader.ReloadAsWrittenEmptiesExhaustedList | src/hooks/common/usePaginatedLoader.ts:39-66 | after an exhausted single page, the reload as written fetches nothing and leaves an empty list, where reset-then-load shows the page again |
| PaginatedLoader.ReloadAsWrittenRequestsRenderedPage | src/hooks/common/usePaginatedLoader.ts:43-66 | as written, a reload after k loaded pages requests page k+1, not page 1 |
| PaginatedLoader.ExhaustedIsFinal | src/hooks/common/usePaginatedLoader.ts:39 | once hasMore is false, any number of loadMore calls leave the cursor unchanged |
| PaginatedLoader.FullPagesKeepLoading | src/hooks/common/usePaginatedLoader.ts:43-47 | while every page comes back full, the cursor stays loadable, the page advances once per call and the data is the pages in arrival order |
| PaginatedLoader.ShortPageThenNoOps | src/hooks/common/usePaginatedLoader.ts:45 | a short page, or any page when the size is unlimited, exhausts the cursor and makes every later call a no-op |
| PaginatedLoader.FailureIsRetryable | src/hooks/common/usePaginatedLoader.ts:48-52 | a failed load leaves no trace: failure followed by a load is that load |
| PaginatedLoader.PageSizeOf | src/hooks/common/usePaginatedLoader.ts:24 | the page size given in the options, 20 when none is given |
| PaginatedLoader.FlagOr | src/hooks/common/usePaginatedLoader.ts:26-28 | a boolean option defaults to true: it is off iff it is given as false |
| PaginatedLoader.MoreAfter | src/hooks/common/usePaginatedLoader.ts:45 | after a fetch, more pages remain iff the size is not unlimited (-1) and the fetched page is at least the page size |
| PaginatedLoader.Loader.constructor | src/hooks/common/usePaginatedLoader.ts:22-34 | initial cells: no data, page 1, hasMore, not loading, not initialized; page size 20 and the three flags true unless the options give them |
| PaginatedLoader.Loader.BeginLoad | src/hooks/common/usePaginatedLoader.ts:38-41 | the guard, then loading is set and the current page is requested |
| PaginatedLoader.Loader.CompleteLoad | src/hooks/common/usePaginatedLoader.ts:43-51 | the success path of the cursor step: append, recompute hasMore, advance the page, set initialized, clear loading |
| PaginatedLoader.Loader.FailLoad | src/hooks/common/usePaginatedLoader.ts:48-52 | the failure path: only loading is cleared |
| PaginatedLoader.Loader.LoadMore | src/hooks/common/usePaginatedLoader.ts:38-53 | a whole loadMore call moves the cells exactly as AfterLoadMore, and requests the current page iff the guard passes |
| PaginatedLoader.Loader.Reset | src/hooks/common/usePaginatedLoader.ts:55-61 | the cells move as AfterReset |
| PaginatedLoader.Loader.Reload | src/hooks/common/usePaginatedLoader.ts:63-66 | with state read atomically: reset, then loadMore on the reset cells, so page 1 is requested iff enabled and not loading |
| PaginatedLoader.Loader.OnQueryChange | src/hooks/common/usePaginatedLoader.ts:68-75 | when disabled nothing changes; otherwise reset, then load when autoLoadOnQueryChange is set |
| PaginatedLoader.Loader.SetEnabled | src/hooks/common/usePaginatedLoader.ts:77-83 | the mount/enabled effect loads once when `enabled` becomes true with autoLoad on |
| MessageCache.Lookup | src/pages/message/chat/useConversationMessagesCache.ts:16-21 | a conversation without an entry reads as no messages, page 1, hasMore, not loading |
| MessageCache.AfterLoadMore | src/pages/message/chat/useConversationMessagesCache.ts:23-55 | no-op without an id, while loading or when exhausted; success prepends the fetched page, page+1, hasMore iff exactly 15 came back; failure keeps messages, page and hasMore; loading ends false; other conversations untouched |
| MessageCache.AfterAppend | src/pages/message/chat/useConversationMessagesCache.ts:57-74 | the message goes to the tail of that conversation only, whose entry is created with defaults if missing; page, hasMore and loading are kept |
| MessageCache.ReplaceById | src/pages/message/chat/useConversationMessagesCache.ts:81-83 | length kept; exactly the entries with the temporary id are replaced |
| MessageCache.MarkFailedById | src/pages/message/chat/useConversationMessagesCache.ts:99-101 | length kept; exactly the entries with the temporary id become `failed` |
| MessageCache.AfterReplace | src/pages/message/chat/useConversationMessagesCache.ts:76-92 | no entry (or no id) leaves the cache as it is; otherwise only that conversation's messages change, by ReplaceById |
| MessageCache.AfterMarkFailed | src/pages/message/chat/useConversationMessagesCache.ts:94-110 | the same, by MarkFailedById |
| MessageCache.AfterSettle | src/pages/message/chat/useConversationMessagesCache.ts:132-139 | the settle step on one conversation: keys kept, other conversations untouched, that conversation's messages replaced by id when delivered and marked failed otherwise |
| MessageCache.NeedsFirstLoad | src/pages/message/chat/useConversationMessagesCache.ts:143-150 | the first-load effect fires iff a conversation is open and its cached message list is empty (or absent) |
| MessageCache.AfterSend | src/pages/message/chat/useConversationMessagesCache.ts:112-141 | no conversation or blank content changes nothing |
| MessageCache.SendSettlesOnce | src/pages/message/chat/useConversationMessagesCache.ts:116-140 | with a fresh temporary id, exactly one entry is appended, `sent` with the server id and time iff delivered, `failed` iff not, never both; the rest of the cache is untouched |
| MessageCache.SendInFlight | src/pages/message/chat/useConversationMessagesCache.ts:114-125 | while the request is in flight, that conversation has exactly one more entry, at the tail, carrying the temporary id, the user, the content and the time, in status `sending` (shown with the pending label); the entries before it, page, hasMore, loading and every other conversation are unchanged |
| MessageCache.SwitchMidSendSettlesOrigin | src/pages/message/chat/useConversationMessagesCache.ts:112-140 | opening another conversation while a send is in flight leaves the original conversation to settle: its tail becomes the sent or failed message, never left `sending` |
| MessageCache.ReusedIdRewritesEarlier | src/pages/message/chat/useConversationMessagesCache.ts:116-139 | matching is by id value: an older message carrying the same id is rewritten as well |
| MessageCache.PrependThenAppend | src/pages/message/chat/useConversationMessagesCache.ts:40-74 | an older page lands before the cached messages and a live message after them |
| MessageCache.MessagesCache.constructor | src/pages/message/chat/useConversationMessagesCache.ts:13-14 | the cache starts empty |
| MessageCache.MessagesCache.LoadMore | src/pages/message/chat/useConversationMessagesCache.ts:23-55 | the cache moves as AfterLoadMore; the current page is requested iff the guard passes |
| MessageCache.MessagesCache.AppendMessage | src/pages/message/chat/useConversationMessagesCache.ts:57-74 | the cache moves as AfterAppend |
| MessageCache.MessagesCache.ReplaceMessage | src/pages/message/chat/useConversationMessagesCache.ts:76-92 | the cache moves as AfterReplace on the conversation of the current render |
| MessageCache.MessagesCache.MarkMessageFailed | src/pages/message/chat/useConversationMessagesCache.ts:94-110 | the cache moves as AfterMarkFailed on the conversation of the current render |
| MessageCache.MessagesCache.ReplaceMessageIn | src/pages/message/chat/useConversationMessagesCache.ts:76-92 | the callback of the render whose conversation was `id`: the cache moves as AfterReplace on `id`, the open conversation is untouched |
| MessageCache.MessagesCache.MarkMessageFailedIn | src/pages/message/chat/useConversationMessagesCache.ts:94-110 | the same for AfterMarkFailed on `id` |
| MessageCache.MessagesCache.BeginSend | src/pages/message/chat/useConversationMessagesCache.ts:112-125 | issued iff a conversation is open and the content is not blank; then the provisional message is appended (AfterAppend), otherwise the cache is unchanged; the conversation the send began on is returned for the settling callbacks |
| MessageCache.MessagesCache.SettleSend | src/pages/message/chat/useConversationMessagesCache.ts:126-140 | in the conversation the send began on, whichever is open now, the provisional entry is replaced by the delivered message or marked failed (AfterSettle) |
| MessageCache.MessagesCache.SendMessage | src/pages/message/chat/useConversationMessagesCache.ts:112-141 | beginSend, then settle when issued: issued iff a conversation is open and the content is not blank, and the cache ends as AfterSend |
| MessageCache.MessagesCache.Open | src/pages/message/chat/useConversationMessagesCache.ts:143-150 | opening a conversation with no entry or no messages loads its first page; otherwise nothing changes |
| ChatConversations.ActiveList | src/pages/message/chat/sidebar/useChatConversations.ts:50-63 | a subsequence of the active set; every entry passes the tab ("0"/"1" keep that status) and, for a non-blank keyword, has a lower-cased name containing the lower-cased keyword; every passing entry is kept, as many times as it occurs in the active set, and a failing one never appears |
| ChatConversations.ByTabSpec | src/pages/message/chat/sidebar/useChatConversations.ts:51-54 | the tab stage: a subsequence with every entry passing the tab and every passing entry kept with its multiplicity |
| ChatConversations.KeywordStage | src/pages/message/chat/sidebar/useChatConversations.ts:56-61 | the keyword stage on the tab result: a subsequence of the active set, entries passing tab and keyword, each kept with its multiplicity |
| ChatConversations.AllTabShowsEverything | src/pages/message/chat/sidebar/useChatConversations.ts:50-62 | tab "-1" with a blank keyword shows the whole active set in order |
| ChatConversations.VisibleList | src/pages/message/chat/sidebar/useChatConversations.ts:72 | the closed list on tab "2"; on every other tab exactly ActiveList, the tab- and keyword-filtered active set with its multiplicities |
| ChatConversations.HasMore | src/pages/message/chat/sidebar/useChatConversations.ts:77 | true only on tab "2", where it is the closed list's flag |
| ChatConversations.Loading | src/pages/message/chat/sidebar/useChatConversations.ts:79 | the closed list's flag on tab "2", the active fetch's elsewhere |
| ChatConversations.Archived | src/pages/message/chat/sidebar/useChatConversations.ts:86 | exactly the entries with that id leave; the rest keep their order and their multiplicity |
| ChatConversations.SetUnread | src/pages/message/chat/sidebar/useChatConversations.ts:97-101 | corrected toggle: length kept; exactly the entries with that id get `is_unread` set |
| ChatConversations.SetUnreadKeyAsWritten | src/pages/message/chat/sidebar/useChatConversations.ts:97-101 | toggle as written: exactly the entries with that id get the separate `isUnread` key; `is_unread` is untouched |
| ChatConversations.ApplyToId | src/pages/message/chat/sidebar/useChatConversations.ts:107-109 | the map step: exactly the entries with that id take the update and the new time |
| ChatConversations.ApplyKeepsOthers | src/pages/message/chat/sidebar/useChatConversations.ts:107-109 | the map step leaves every other entry, and their order, alone |
| ChatConversations.Promote | src/pages/message/chat/sidebar/useChatConversations.ts:111-115 | when the id is listed, the result is non-empty and its first entry has that id |
| ChatConversations.PromotePermutes | src/pages/message/chat/sidebar/useChatConversations.ts:111-115 | move to front preserves length and is a permutation of the updated list |
| ChatConversations.PromoteAbsent | src/pages/message/chat/sidebar/useChatConversations.ts:111-112 | an absent id leaves the list unchanged |
| ChatConversations.PromoteFront | src/pages/message/chat/sidebar/useChatConversations.ts:111-115 | the first entry with the id, updated, ends up in front |
| ChatConversations.PromoteKeepsOthersInOrder | src/pages/message/chat/sidebar/useChatConversations.ts:114-115 | all other entries keep their relative order |
| ChatConversations.ConversationStore.constructor | src/pages/message/chat/sidebar/useChatConversations.ts:12-15 | empty active set, not loading, not loaded, closed list initial and enabled iff tab "2" |
| ChatConversations.ConversationStore.LoadActive | src/pages/message/chat/sidebar/useChatConversations.ts:19-37 | fetches once, on a static tab; a body with a list replaces the set; a resolved fetch marks it loaded, a rejected one leaves it to retry; loading ends false |
| ChatConversations.ConversationStore.SetTab | src/pages/message/chat/sidebar/useChatConversations.ts:39-47 | the closed list is enabled iff the tab is "2" and loads when it becomes enabled; the active set is kept |
| ChatConversations.ConversationStore.LoadMore | src/pages/message/chat/sidebar/useChatConversations.ts:73-75 | delegates to the closed list on tab "2" only |
| ChatConversations.ConversationStore.Refresh | src/pages/message/chat/sidebar/useChatConversations.ts:81 | resets the closed list on tab "2", nothing elsewhere |
| ChatConversations.ConversationStore.ArchiveConversation | src/pages/message/chat/sidebar/useChatConversations.ts:83-88 | after an acknowledged update, on a static tab, the set becomes Archived |
| ChatConversations.ConversationStore.MarkIsUnread | src/pages/message/chat/sidebar/useChatConversations.ts:90-103 | nothing for an id not in the set; the backend is written iff clearing; the flag of that id is set, through the corrected toggle SetUnread rather than the as-written key, unless the clearing write threw |
| ChatConversations.ConversationStore.UpdateConversationById | src/pages/message/chat/sidebar/useChatConversations.ts:105-117 | the set becomes the move-to-front of the update |
| SidebarHeader.UnreadCount | src/pages/message/chat/sidebar/sidebar-header.tsx:29-31 | the number of listed conversations with status < 2 and `is_unread`; never more than the list length |
| SidebarHeader.UnreadCountConcat | src/pages/message/chat/sidebar/sidebar-header.tsx:30 | the count of a concatenation is the sum of the counts |
| SidebarHeader.ClosedNeverCounts | src/pages/message/chat/sidebar/sidebar-header.tsx:30 | a conversation with status ≥ 2 contributes nothing, wherever it sits |
| SidebarHeader.UnreadCountPositiveIff | src/pages/message/chat/sidebar/sidebar-header.tsx:29-31 | the count is positive iff some listed conversation is active and unread |
| SidebarHeader.ShowBadge | src/pages/message/chat/sidebar/sidebar-header.tsx:46 | the badge only appears on the "-1" trigger |
| SidebarHeader.BadgeIffUnreadActive | src/pages/message/chat/sidebar/sidebar-header.tsx:46 | a trigger shows the badge iff it is "-1" and some listed conversation is active and unread |
| SidebarHeader.AsWrittenToggleLeavesCount | src/pages/message/chat/sidebar/useChatConversations.ts:97-101 | the toggle as written never changes the badge count |
| SidebarHeader.AsWrittenSelectionKeepsBadge | src/pages/message/chat/sidebar/sidebar-header.tsx:29-31 | one active unread conversation, cleared by the toggle as written, still counts one |
| SidebarHeader.ClearingCountsOnlyOthers | src/pages/message/chat/sidebar/sidebar-header.tsx:30 | after the corrected clear, the count is that of the conversations with other ids |
| SidebarHeader.ClearingLowersCount | src/pages/message/chat/sidebar/sidebar-header.tsx:30 | the corrected clear of a counted id lowers the count |
| SidebarHeader.CorrectedToggleNeverRaises | src/pages/message/chat/sidebar/sidebar-header.tsx:30 | the corrected clear never raises the count |
| Sidebar.SelectedItem | src/pages/message/chat/sidebar/index.tsx:42 | the first listed entry whose id is the selection, or none when nothing is selected or nothing matches |
| Sidebar.DefaultSelectionIsReported | src/pages/message/chat/sidebar/index.tsx:35-45 | after the first entry is selected, the lookup reports that entry |
| Sidebar.SidebarState.constructor | src/pages/message/chat/sidebar/index.tsx:13-15 | tab "-1", no selection, empty search |
| Sidebar.SidebarState.Select | src/pages/message/chat/sidebar/index.tsx:47-52 | the selection becomes the id; when it changed to a truthy id present in the active set and the write is acknowledged, that conversation's `is_unread` is cleared through the corrected toggle SetUnread |
| Sidebar.SidebarState.SyncSelection | src/pages/message/chat/sidebar/index.tsx:35-45 | with no truthy selection and a non-empty list the first entry is selected (and cleared); the reported item is looked up with the selection the effect saw |
| Sidebar.SidebarState.SetTab | src/pages/message/chat/sidebar/index.tsx:58 | the store follows the tab |
| Sidebar.SidebarState.SetSearch | src/pages/message/chat/sidebar/index.tsx:60 | the search becomes the keyword |
| ConversationList.ScrollLoads | src/pages/message/chat/sidebar/conversation-list.tsx:39-46 | loadMore iff hasMore, not loading and the distance to the bottom is at most viewport + 50 |
| ConversationList.NearBottom | src/pages/message/chat/sidebar/conversation-list.tsx:41 | the distance to the bottom (scrollHeight - scrollTop - clientHeight) is at most 50 |
| ConversationList.AutoFills | src/pages/message/chat/sidebar/conversation-list.tsx:26-37 | auto-fill only when the content cannot scroll and the list is non-empty |
| ConversationList.NoLoadWhileBusyOrExhausted | src/pages/message/chat/sidebar/conversation-list.tsx:28 | neither trigger fires while loading or when exhausted |
| ConversationList.NearBottomMonotone | src/pages/message/chat/sidebar/conversation-list.tsx:41 | near-bottom at some scrollTop stays true at every larger one |
| ConversationList.UnscrollableIsNearBottom | src/pages/message/chat/sidebar/conversation-list.tsx:26-46 | on content that does not overflow, auto-fill and the scroll trigger agree |
| MessageList.MinutesBetween | src/pages/message/chat/message-list.tsx:65 | whole minutes between the instants, truncated toward zero |
| MessageList.DateSeparators | src/pages/message/chat/message-list.tsx:49-67 | the render loop marks message i iff ShowsDate: the first message, or more than 180 minutes after the previous message |
| MessageList.ShowsDate | src/pages/message/chat/message-list.tsx:63-67 | the first message always gets a separator; a later one only when it is more than 180 minutes after its predecessor |
| MessageList.ShowsDateIffGap | src/pages/message/chat/message-list.tsx:64-65 | a later message gets a separator iff it is at least 181 × 60000 ms after its predecessor |
| MessageList.ReferenceIsPreviousMessage | src/pages/message/chat/message-list.tsx:67 | the gap is measured from the previous message, not from the previous separator |
| MessageList.ShowsDateIsLocal | src/pages/message/chat/message-list.tsx:63-67 | a separator depends only on the message and its predecessor |
| MessageList.SideOf | src/pages/message/chat/message-list.tsx:61 | a message is the operator's own iff userId is present and non-empty |
| MessageList.IndicatorOf | src/pages/message/chat/message-list.tsx:107-117 | `sending` shows the pending label, `failed` the resend action, anything else neither |
| MessageList.LoadsOlder | src/pages/message/chat/message-list.tsx:35-47 | older messages are requested iff the view is mounted, hasMore, not loading, scrollTop < 50 and an onLoadMore handler is present |
| LegacyChat.Loaded | src/pages/message/chat/useChat.ts:57-64 | one conversation per row, in row order: id, name, status, last message and time are the row's, with an empty message list |
| LegacyChat.LoadedMessages | src/pages/message/chat/useChat.ts:86-92 | one message per row, in order: id, user, type, content and time are the row's, without a delivery status |
| LegacyChat.WithMessages | src/pages/message/chat/useChat.ts:94-96 | only conversations with that id take the new messages |
| LegacyChat.Merge | src/pages/message/chat/useChat.ts:105 | the update's given fields win, the rest of the message is kept |
| LegacyChat.MergeInto | src/pages/message/chat/useChat.ts:105 | only messages with the temporary id are merged; length kept |
| LegacyChat.UpdateStatusIn | src/pages/message/chat/useChat.ts:99-110 | only the named conversation's messages change |
| LegacyChat.UnsentIdIsInert | src/pages/message/chat/useChat.ts:171-179 | an update for an id no message carries changes nothing |
| LegacyChat.WithLastMessage | src/pages/message/chat/useChat.ts:143-152 | only the selected conversation shows the new text and time |
| LegacyChat.OthersUntouched | src/pages/message/chat/useChat.ts:143-156 | the other conversations are those of the original list, in order |
| LegacyChat.PromotedFront | src/pages/message/chat/useChat.ts:154-157 | the selected conversation, updated, is first, followed by all others in their original order |
| LegacyChat.PromotedAbsent | src/pages/message/chat/useChat.ts:155-157 | an absent selection leaves content and order unchanged |
| LegacyChat.Promoted | src/pages/message/chat/useChat.ts:154-156 | after the front entry, no entry carries the selected id |
| LegacyChat.PromotedKeepsMessages | src/pages/message/chat/useChat.ts:142-158 | every entry of the reordered list has the id and messages of an original entry |
| LegacyChat.OutcomeUpdate | src/pages/message/chat/useChat.ts:171-179 | success merges the stored id, time and `sent`; failure merges only `failed` |
| LegacyChat.AfterSend | src/pages/message/chat/useChat.ts:121-180 | without selection, user or non-blank content nothing changes |
| LegacyChat.SendOnlyPromotes | src/pages/message/chat/useChat.ts:135-179 | since the provisional message is never inserted, a send whose temporary id no message has only moves the conversation to front |
| LegacyChat.Chat.constructor | src/pages/message/chat/useChat.ts:25-28 | no conversations, no selection, no user, not loading |
| LegacyChat.Chat.SetCurrentUser | src/pages/message/chat/useChat.ts:30-34 | a truthy user id becomes the current user |
| LegacyChat.Chat.SetSelectedId | src/pages/message/chat/useChat.ts:26 | the selection is replaced |
| LegacyChat.Chat.BeginLoadConversations | src/pages/message/chat/useChat.ts:45 | loading is set; list, selection and user are kept |
| LegacyChat.Chat.LoadConversations | src/pages/message/chat/useChat.ts:44-70 | the request settles: an error keeps list and selection; otherwise the rows replace the list and, with nothing selected and rows present, the first is selected; loading ends false |
| LegacyChat.Chat.LoadMessages | src/pages/message/chat/useChat.ts:72-97 | with a selection and a successful fetch, only the selected conversation's messages are replaced |
| LegacyChat.Chat.UpdateMessageStatus | src/pages/message/chat/useChat.ts:99-110 | the list moves as UpdateStatusIn |
| LegacyChat.Chat.SendMessage | src/pages/message/chat/useChat.ts:121-180 | sent iff the guard passes; the list moves as AfterSend |
| ChatPage.Digits | src/pages/message/chat/index.tsx:18 | `String(n)` for n ≥ 0: only decimal digits, denoting n, with no leading zero unless n is 0, and one digit exactly when n < 10 |
| ChatPage.StatusText | src/pages/message/chat/index.tsx:18 | `String(status)`: starts with "-" iff the status is negative, and the rest is the decimal text of its magnitude |
| ChatPage.StatusTextInjective | src/pages/message/chat/index.tsx:18 | different statuses have different texts |
| ChatPage.StatusTextDigitIff | src/pages/message/chat/index.tsx:18 | a one-digit string is the status text of exactly that status |
| ChatPage.Filtered | src/pages/message/chat/index.tsx:17-20 | a subsequence of the conversations; everything in it passes tab and case-sensitive search; everything passing both is kept, with its multiplicity |
| ChatPage.PassesTab | src/pages/message/chat/index.tsx:18 | a tab other than "-1" passes a conversation only when it is the status text: the digits denoting a non-negative status, or a "-"-led text for a negative one |
| ChatPage.PassesSearch | src/pages/message/chat/index.tsx:19 | an empty search matches every name; a search longer than the name never matches |
| ChatPage.AllTabEmptySearchShowsAll | src/pages/message/chat/index.tsx:17-20 | tab "-1" with an empty search shows every conversation in order |
| ChatPage.DigitTabSelectsStatus | src/pages/message/chat/index.tsx:18 | a one-digit tab passes exactly that status |
| ChatPage.Selected | src/pages/message/chat/index.tsx:15 | the first conversation whose id is the selection, none otherwise |
| ChatPage.Page.constructor | src/pages/message/chat/index.tsx:11-12 | tab "-1", empty search |
| ChatPage.Page.HandleSendText | src/pages/message/chat/index.tsx:22-24 | a text send of the store |
| ChatPage.Page.HandleSendImage | src/pages/message/chat/index.tsx:26-33 | without a URL nothing is sent and nothing changes; otherwise an image send with the URL |
| Pagination.Initial | src/hooks/common/usePagination.ts:3-7 | page 1, page size as given or 15 |
| Pagination.FirstPage | src/hooks/common/usePagination.ts:13-15 | page 1, page size kept |
| Pagination.FirstPageIdempotent | src/hooks/common/usePagination.ts:13-15 | resetting twice is resetting once |
| Pagination.ResetAfterChange | src/hooks/common/usePagination.ts:9-15 | a reset after a change keeps the chosen page size |
| Pagination.TablePagination.constructor | src/hooks/common/usePagination.ts:3-7 | the record starts as Initial |
| Pagination.TablePagination.HandlePaginationChange | src/hooks/common/usePagination.ts:9-11 | exactly page and page size are set |
| Pagination.TablePagination.ResetPage | src/hooks/common/usePagination.ts:13-15 | the record moves as FirstPage |
| Clean.Cleaned | src/utils/clean.ts:4-13 | keys are a subset of the input's, values unchanged, none empty |
| Clean.IsEmptyValue | src/utils/clean.ts:6-11 | null and undefined are empty; a string only when it is `''`; an array only when it has no items; numbers (0 included), booleans and objects never |
| Clean.RemoveEmptyParams | src/utils/clean.ts:1-16 | the loop builds exactly Cleaned |
| Clean.KeptIff | src/utils/clean.ts:6-12 | a key is kept iff its value is not `''`, null, undefined or an empty array |
| Clean.KeepsZeroFalseAndNonEmptyArrays | src/utils/clean.ts:6-11 | 0, false and non-empty arrays survive unchanged |
| Clean.NothingEmptyIsFixedPoint | src/utils/clean.ts:4-13 | a record with nothing empty comes back as it is |
| Clean.CleanedIdempotent | src/utils/clean.ts:4-16 | cleaning twice is cleaning once |
| TaskModal.Defaults | src/pages/message/bulk-tasks/task-modal.tsx:35-41 | an own `useTemplate` key wins even when it holds undefined; without the key the mode is 1; every other field is the given value |
| TaskModal.UndefinedModeKeyOverridesDefault | src/pages/message/bulk-tasks/task-modal.tsx:35-41 | a form value whose own `useTemplate` key is undefined opens with no mode, and the mode rule reports "请选择发送信息的方式"; without the key the rule passes |
| TaskModal.Utf16Length | src/pages/message/bulk-tasks/task-modal.tsx:66 | JavaScript string length, between the character count and twice it |
| TaskModal.NameError | src/pages/message/bulk-tasks/task-modal.tsx:64-67 | the name passes iff given, non-empty and at most 20 UTF-16 units |
| TaskModal.RunAtError | src/pages/message/bulk-tasks/task-modal.tsx:82-89 | passes iff given and strictly later than now |
| TaskModal.IntervalError | src/pages/message/bulk-tasks/task-modal.tsx:129-134 | passes iff given and at least 1 |
| TaskModal.UseTemplateError | src/pages/message/bulk-tasks/task-modal.tsx:150 | passes iff given |
| TaskModal.TemplateIdError | src/pages/message/bulk-tasks/task-modal.tsx:168-174 | fails iff the mode is 1 and no template is chosen |
| TaskModal.MessageError | src/pages/message/bulk-tasks/task-modal.tsx:199-205 | fails iff the mode is 0 and the text is missing or blank |
| TaskModal.FileError | src/pages/message/bulk-tasks/task-modal.tsx:226 | passes iff a file is chosen |
| TaskModal.Validate | src/pages/message/bulk-tasks/task-modal.tsx:64-226 | all seven field rules; the template field can only fail in mode 1 and the message field only in mode 0 |
| TaskModal.Submits | src/pages/message/bulk-tasks/task-modal.tsx:60 | a submitted form has a run time, an interval, a mode and a file |
| TaskModal.SubmitsIff | src/pages/message/bulk-tasks/task-modal.tsx:60 | the form submits iff all seven rules hold |
| TaskModal.ModesCheckOneSource | src/pages/message/bulk-tasks/task-modal.tsx:166-205 | each mode checks only its own message source |
| TaskModal.BlankNamePasses | src/pages/message/bulk-tasks/task-modal.tsx:65 | `required` does not trim: every non-empty white-space name of at most 20 characters passes the name rule |
| TaskModal.BlankUtf16Length | src/pages/message/bulk-tasks/task-modal.tsx:66 | white space is in the Basic Multilingual Plane, so a blank string's `.length` is its character count |
| TaskModal.LongNameFails | src/pages/message/bulk-tasks/task-modal.tsx:66 | a name of more than 20 characters gets the length message |
| BulkTasks.KnownBadge | src/pages/message/bulk-tasks/index.tsx:27-36 | exactly the five statuses have an entry, with the listed labels and colours |
| BulkTasks.BadgeOf | src/pages/message/bulk-tasks/index.tsx:154-157 | a known status shows its entry; any other shows its raw value in the default colour, and only those do |
| BulkTasks.ActionsFollowStatus | src/pages/message/bulk-tasks/index.tsx:175-188 | cancel iff pending or processing, progress iff processing, so progress implies cancel |
| BulkTasks.CanCancel | src/pages/message/bulk-tasks/index.tsx:175 | only a known status can be cancelled (pending or processing) |
| BulkTasks.CanViewProgress | src/pages/message/bulk-tasks/index.tsx:188 | only processing tasks show progress, and those can also be cancelled |
| BulkTasks.RequestFor | src/pages/message/bulk-tasks/index.tsx:86-106 | a truthy id sends only id and name; otherwise a create with taskType "sms", the file, and templateId iff the mode is 1, message otherwise |
| BulkTasks.ValidTextFormCarriesText | src/pages/message/bulk-tasks/index.tsx:90-98 | a validated custom-text form creates a task with a non-blank text |
| BulkTasks.TasksPage.constructor | src/pages/message/bulk-tasks/index.tsx:56-74 | modal closed and titled "新增任务", no task selected, count 0 |
| BulkTasks.TasksPage.OnCreate | src/pages/message/bulk-tasks/index.tsx:269-279 | the modal opens titled "创建任务" and the page's formValue is set to template mode; nothing else changes |
| BulkTasks.TasksPage.HandleOk | src/pages/message/bulk-tasks/index.tsx:86-109 | sends RequestFor; the modal closes only after the request succeeded |
| BulkTasks.TasksPage.OpenProgress | src/pages/message/bulk-tasks/index.tsx:193-197 | selects the task, shows progress, resets the count to 0 before the refresh sets the fetched count |
| BulkTasks.TasksPage.OpenDetail | src/pages/message/bulk-tasks/index.tsx:205-210 | selects the task and shows the detail dialog; the refresh effect (81-84) sets the count to the fetched value when the fetch succeeds |
| BulkTasks.TasksPage.CloseProgress | src/pages/message/bulk-tasks/index.tsx:381-386 | the progress dialog closes; the refresh effect refetches the count only while a task is selected and the detail dialog is open |
| BulkTasks.TasksPage.CloseDetail | src/pages/message/bulk-tasks/index.tsx:389-394 | the detail dialog closes; the count is refetched only while a task is selected and the progress dialog is open |

## Left out

- **HTTP, database and realtime layers.** These are the axios client and its
  401 refresh, the endpoint wrappers, the Supabase calls and the WebSocket
  transport. Their results enter as parameters instead. The inbound-event
  routing that calls the cache and store operations is not part of this model.
- **React scheduling.** Every operation reads and writes the current state
  atomically. Two things therefore go unmodelled:
  - stale closures, for example loadMore writing back a captured `current`
    snapshot, or markIsUnRead's `findIndex` on the rendered `activeAll`;
  - `setState` batching.
  `reload` and the query-change effect in particular are modelled as reset
  followed by loadMore on the reset state. In the source, that loadMore still
  sees the pre-reset `loading`, `hasMore` and `page`: it requests the rendered
  page, not page 1, the fetched page lands in the cleared list, and the page
  ends at 2. PaginatedLoader.AfterReloadAsWritten and the Findings row below
  state that behaviour; the Loader class follows the atomic reading.
- **Both mount effects of the loader.** With `enabled` and `autoLoad` on, the
  query effect and the enabled effect run at mount, and both call loadMore
  with the same unloaded snapshot. The model runs one of them.
- **Timers and effects.** The 200 ms auto-fill timer, the auto-scroll to the
  bottom and progress polling are left out. Effects are methods the caller
  invokes.
- **Formatted time strings.** `lastMessageAt` "MM-DD" strings, ISO creation
  times of the older store, and the formatted message times are opaque string
  values. The date separator works on instants in milliseconds. A message
  whose `createdAt` is the empty string would reset the reference in the
  source, and that is not modelled.
- **Shifted letter case.** `toLowerCase` is modelled for ASCII letters only.
- **Whole numbers only.** Numbers are whole. An interval typed as a fraction is
  not modelled.
- **Loader response without a list.** The loader's fetch outcome is a list or
  an exception. A resolved body without `list`, which throws inside the
  `try`, is modelled as the exception path.
- **Inherited keys.** `removeEmptyParams` iterates the record's own keys.
  Inherited enumerable keys are not modelled, and neither is the prototype
  lookup that would give a status such as "toString" a map entry in
  `TASK_STATUS_MAP`.
- **Mount effects under a "2" tab.** ChatConversations.ConversationStore.constructor
  gives the state before the mount effects. The closed list's mount load on a
  tab that is already "2" goes through SetTab or the loader's own methods, not
  through the constructor.
- **BulkTasks.TasksPage.OnCreate: the form keeps its first defaults.** The
  modal is mounted once (src/pages/message/bulk-tasks/index.tsx:378), and
  `useForm` reads its default values only at mount; the effect that would reset
  the form (task-modal.tsx:43-45) is commented out. OnCreate sets the page's
  form value, and a reopened modal in the source still shows the values of its
  first mount. The form's own state is not modelled.
- **ChatConversations.ConversationStore.MarkIsUnread and Sidebar.SidebarState.Select
  use the corrected toggle.** Both write `is_unread` through SetUnread. The
  as-written toggle, which writes a separate `isUnread` key, is
  SetUnreadKeyAsWritten, and the Findings row shows what it does to the badge.
- **Fields a summary update may carry.** Updates carry name, status, last
  message and `is_unread`. An update carrying an `id` of its own is not
  modelled.
- **Refetches after an action.** The task list refetch, the cancel request and
  the search form are query wiring without statable state.
- **Status codes kept as written.** The closed list queries status 2 while
  archive writes status 3 (src/pages/message/chat/sidebar/useChatConversations.ts:41,84).
  The model keeps both literally.

## Findings

| source | as written | input that shows it | evidently intended | confidence | as-written member | corrected member |
|---|---|---|---|---|---|---|
| src/pages/message/chat/sidebar/useChatConversations.ts:99 | the unread toggle writes the camel-case key `isUnread`, while the badge count (sidebar-header.tsx:30) and the unread dot read `is_unread` | one conversation `{id: "a", status: 0, is_unread: true}`; selecting it calls `markIsUnRead("a", false)`, and the badge still counts 1 | clearing sets the `is_unread` field the views read, so the count drops | medium, not executed | SidebarHeader.AsWrittenSelectionKeepsBadge | SidebarHeader.ClearingLowersCount |
| src/hooks/common/usePaginatedLoader.ts:63-66 | `reload` calls `reset()` and then `loadMore()` in one closure; the setters in reset are only queued, so loadMore's guard and request read the rendered `loading`, `hasMore` and `page` | a cursor holding one short page (`hasMore` false, page 2): reload clears the data and its loadMore returns at the exhausted guard, leaving an empty list; a cursor after two full pages requests page 3 into the cleared list | reload starts over: the data is cleared and page 1 is fetched | low, not executed; nothing in this model calls `reload`, and the query-change effect (68-75) has the same shape | PaginatedLoader.ReloadAsWrittenEmptiesExhaustedList | PaginatedLoader.ReloadIsFreshStart |
