/** The older chat store of src/pages/message/chat/useChat.ts: a list of
    conversations that each embed their messages, the selected id, the signed-in
    user, and the operations that load conversations and messages, merge a status
    update into a message and send a message (which moves the conversation to the
    front). Database and storage calls are parameters. */
module LegacyChat {
  import opened Base
  import opened ChatTypes

  /** A message as this store holds it; `createdAt` is a formatted or ISO string. */
  datatype LegacyMessage = LegacyMessage(
    id: int,
    fromUser: string,
    kind: MessageType,
    content: string,
    createdAt: string,
    status: Option<DeliveryStatus>)

  datatype LegacyConversation = LegacyConversation(
    id: string,
    name: string,
    status: int,
    messages: seq<LegacyMessage>,
    lastMessage: string,
    lastMessageAt: string)

  /** A row of the conversations table. */
  datatype ConversationRow = ConversationRow(id: string, name: string, status: int, lastMessageAt: string, lastMessage: string)

  /** A row of the messages table, its time already formatted for display. */
  datatype MessageRow = MessageRow(id: int, fromUser: string, kind: MessageType, content: string, createdAt: string)

  /** `Partial<Message>` as the store uses it. */
  datatype MessageUpdate = MessageUpdate(id: Option<int>, createdAt: Option<string>, status: Option<DeliveryStatus>)

  /** The insert request: the stored row's id and time, or an error. */
  datatype InsertOutcome = Inserted(id: int, createdAt: string) | InsertFailed

  // ---------------------------------------------------------------------------
  // Loading

  function FromRow(row: ConversationRow): LegacyConversation
  {
    LegacyConversation(row.id, row.name, row.status, [], row.lastMessage, row.lastMessageAt)
  }

  /** The conversations built from the rows, in row order, each without messages. */
  function Loaded(rows: seq<ConversationRow>): (r: seq<LegacyConversation>)
    ensures |r| == |rows|
    ensures forall i :: 0 <= i < |rows| ==>
      && r[i].id == rows[i].id && r[i].name == rows[i].name && r[i].status == rows[i].status
      && r[i].lastMessage == rows[i].lastMessage && r[i].lastMessageAt == rows[i].lastMessageAt
      && r[i].messages == []
  {
    seq(|rows|, i requires 0 <= i < |rows| => FromRow(rows[i]))
  }

  function FromMessageRow(row: MessageRow): LegacyMessage
  {
    LegacyMessage(row.id, row.fromUser, row.kind, row.content, row.createdAt, None)
  }

  /** The fetched messages, in order and without a delivery status. */
  function LoadedMessages(rows: seq<MessageRow>): (r: seq<LegacyMessage>)
    ensures |r| == |rows|
    ensures forall i :: 0 <= i < |rows| ==>
      && r[i].id == rows[i].id && r[i].fromUser == rows[i].fromUser && r[i].kind == rows[i].kind
      && r[i].content == rows[i].content && r[i].createdAt == rows[i].createdAt
      && r[i].status.None?
  {
    seq(|rows|, i requires 0 <= i < |rows| => FromMessageRow(rows[i]))
  }

  /** The conversations with id `id` get `ms` as their messages. */
  function WithMessages(convs: seq<LegacyConversation>, id: string, ms: seq<LegacyMessage>): (r: seq<LegacyConversation>)
    ensures |r| == |convs|
    ensures forall i :: 0 <= i < |convs| ==> r[i] == if convs[i].id == id then convs[i].(messages := ms) else convs[i]
  {
    if convs == [] then []
    else [if convs[0].id == id then convs[0].(messages := ms) else convs[0]] + WithMessages(convs[1..], id, ms)
  }

  // ---------------------------------------------------------------------------
  // Status updates

  /** `{ ...msg, ...update }`. */
  function Merge(m: LegacyMessage, u: MessageUpdate): (r: LegacyMessage)
    ensures r.fromUser == m.fromUser && r.kind == m.kind && r.content == m.content
    ensures r.id == (if u.id.Some? then u.id.value else m.id)
    ensures r.createdAt == (if u.createdAt.Some? then u.createdAt.value else m.createdAt)
    ensures r.status == (if u.status.Some? then u.status else m.status)
  {
    LegacyMessage(
      if u.id.Some? then u.id.value else m.id,
      m.fromUser, m.kind, m.content,
      if u.createdAt.Some? then u.createdAt.value else m.createdAt,
      if u.status.Some? then u.status else m.status)
  }

  /** The messages with id `tempId` take the update; the others are kept. */
  function MergeInto(ms: seq<LegacyMessage>, tempId: int, u: MessageUpdate): (r: seq<LegacyMessage>)
    ensures |r| == |ms|
    ensures forall j :: 0 <= j < |ms| ==> r[j] == if ms[j].id == tempId then Merge(ms[j], u) else ms[j]
  {
    if ms == [] then []
    else [if ms[0].id == tempId then Merge(ms[0], u) else ms[0]] + MergeInto(ms[1..], tempId, u)
  }

  /** updateMessageStatus: only the messages of the conversations with id
      `conversationId` are touched. */
  function UpdateStatusIn(convs: seq<LegacyConversation>, conversationId: string, tempId: int, u: MessageUpdate): (r: seq<LegacyConversation>)
    ensures |r| == |convs|
    ensures forall i :: 0 <= i < |convs| ==>
      r[i] == if convs[i].id == conversationId then convs[i].(messages := MergeInto(convs[i].messages, tempId, u)) else convs[i]
  {
    if convs == [] then []
    else
      [if convs[0].id == conversationId then convs[0].(messages := MergeInto(convs[0].messages, tempId, u)) else convs[0]]
      + UpdateStatusIn(convs[1..], conversationId, tempId, u)
  }

  /** No message of that conversation has id `tempId`. */
  predicate NoMessageWithId(convs: seq<LegacyConversation>, conversationId: string, tempId: int)
  {
    forall i, j :: 0 <= i < |convs| && convs[i].id == conversationId && 0 <= j < |convs[i].messages| ==>
      convs[i].messages[j].id != tempId
  }

  /** An update for an id that no message carries changes nothing. */
  lemma UnsentIdIsInert(convs: seq<LegacyConversation>, conversationId: string, tempId: int, u: MessageUpdate)
    requires NoMessageWithId(convs, conversationId, tempId)
    ensures UpdateStatusIn(convs, conversationId, tempId, u) == convs
  {
    var r := UpdateStatusIn(convs, conversationId, tempId, u);
    forall i | 0 <= i < |convs|
      ensures r[i] == convs[i]
    {
      if convs[i].id == conversationId {
        var ms := convs[i].messages;
        assert MergeInto(ms, tempId, u) == ms;
      }
    }
  }

  // ---------------------------------------------------------------------------
  // Sending

  /** The map step of sendMessage: the selected conversation shows the new text. */
  function WithLastMessage(convs: seq<LegacyConversation>, selectedId: string, content: string, at: string): (r: seq<LegacyConversation>)
    ensures |r| == |convs|
    ensures forall i :: 0 <= i < |convs| ==>
      r[i] == if convs[i].id == selectedId then convs[i].(lastMessage := content, lastMessageAt := at) else convs[i]
  {
    if convs == [] then []
    else
      [if convs[0].id == selectedId then convs[0].(lastMessage := content, lastMessageAt := at) else convs[0]]
      + WithLastMessage(convs[1..], selectedId, content, at)
  }

  predicate IsOther(c: LegacyConversation, id: string)
  {
    c.id != id
  }

  /** `current ? [current, ...others] : others`: the first entry with the selected
      id in front of all entries with another id. Further entries sharing the
      selected id are dropped. */
  function Promoted(convs: seq<LegacyConversation>, selectedId: string, content: string, at: string): (r: seq<LegacyConversation>)
    ensures forall i :: 0 < i < |r| ==> r[i].id != selectedId
  {
    var updated := WithLastMessage(convs, selectedId, content, at);
    var others := Filter((c: LegacyConversation) => IsOther(c, selectedId), updated);
    match FindIndex((c: LegacyConversation) => !IsOther(c, selectedId), updated)
    case Some(k) => [updated[k]] + others
    case None => others
  }

  /** The others of the updated list are the others of the original list. */
  lemma {:induction false} OthersUntouched(convs: seq<LegacyConversation>, selectedId: string, content: string, at: string)
    ensures Filter((c: LegacyConversation) => IsOther(c, selectedId), WithLastMessage(convs, selectedId, content, at))
         == Filter((c: LegacyConversation) => IsOther(c, selectedId), convs)
  {
    if convs != [] {
      var r := WithLastMessage(convs, selectedId, content, at);
      assert r[1..] == WithLastMessage(convs[1..], selectedId, content, at);
      OthersUntouched(convs[1..], selectedId, content, at);
    }
  }

  /** With the selected id present, its first entry, showing the new text, is in
      front, followed by every other conversation in its original order. */
  lemma PromotedFront(convs: seq<LegacyConversation>, selectedId: string, content: string, at: string, k: nat)
    requires k < |convs| && convs[k].id == selectedId
    requires forall j :: 0 <= j < k ==> convs[j].id != selectedId
    ensures Promoted(convs, selectedId, content, at)
         == [convs[k].(lastMessage := content, lastMessageAt := at)] + Filter((c: LegacyConversation) => IsOther(c, selectedId), convs)
  {
    var updated := WithLastMessage(convs, selectedId, content, at);
    OthersUntouched(convs, selectedId, content, at);
    FindIndexFirst((c: LegacyConversation) => !IsOther(c, selectedId), updated, k);
  }

  /** Without the selected id, content and order are unchanged. */
  lemma PromotedAbsent(convs: seq<LegacyConversation>, selectedId: string, content: string, at: string)
    requires forall i :: 0 <= i < |convs| ==> convs[i].id != selectedId
    ensures Promoted(convs, selectedId, content, at) == convs
  {
    var updated := WithLastMessage(convs, selectedId, content, at);
    assert updated == convs;
    assert FindIndex((c: LegacyConversation) => !IsOther(c, selectedId), updated).None?;
  }

  /** Every entry of the reordered list is an entry of the updated list. */
  lemma PromotedFromUpdated(convs: seq<LegacyConversation>, selectedId: string, content: string, at: string)
    ensures forall x :: x in Promoted(convs, selectedId, content, at) ==> x in WithLastMessage(convs, selectedId, content, at)
  {
    var updated := WithLastMessage(convs, selectedId, content, at);
    var others := Filter((c: LegacyConversation) => IsOther(c, selectedId), updated);
    SubseqMembers(others, updated);
  }

  /** Moving to front keeps each conversation's messages: entries with the selected
      id come from entries with that id. */
  lemma PromotedKeepsMessages(convs: seq<LegacyConversation>, selectedId: string, content: string, at: string)
    ensures var r := Promoted(convs, selectedId, content, at);
      forall i :: 0 <= i < |r| ==>
        exists j :: 0 <= j < |convs| && convs[j].id == r[i].id && convs[j].messages == r[i].messages
  {
    var r := Promoted(convs, selectedId, content, at);
    var updated := WithLastMessage(convs, selectedId, content, at);
    PromotedFromUpdated(convs, selectedId, content, at);
    forall i | 0 <= i < |r|
      ensures exists j :: 0 <= j < |convs| && convs[j].id == r[i].id && convs[j].messages == r[i].messages
    {
      assert r[i] in updated;
      var j :| 0 <= j < |updated| && updated[j] == r[i];
      assert convs[j].id == r[i].id && convs[j].messages == r[i].messages;
    }
  }

  /** The update that follows the insert request. */
  function OutcomeUpdate(outcome: InsertOutcome): (r: MessageUpdate)
    ensures outcome.Inserted? ==> r == MessageUpdate(Some(outcome.id), Some(outcome.createdAt), Some(Sent))
    ensures outcome.InsertFailed? ==> r == MessageUpdate(None, None, Some(Failed))
  {
    match outcome
    case Inserted(id, createdAt) => MessageUpdate(Some(id), Some(createdAt), Some(Sent))
    case InsertFailed => MessageUpdate(None, None, Some(Failed))
  }

  /** The guard of sendMessage: a selection, a signed-in user and non-blank content. */
  predicate CanSend(selectedId: Option<string>, currentUserId: string, content: string)
  {
    Present(selectedId) && currentUserId != "" && Trim(content) != ""
  }

  /** The conversation list after sendMessage; `now` is the ISO time of the send. */
  function AfterSend(convs: seq<LegacyConversation>, selectedId: Option<string>, currentUserId: string,
                     content: string, tempId: int, now: string, outcome: InsertOutcome): (r: seq<LegacyConversation>)
    ensures !CanSend(selectedId, currentUserId, content) ==> r == convs
  {
    if !CanSend(selectedId, currentUserId, content) then convs
    else
      var id := selectedId.value;
      UpdateStatusIn(Promoted(convs, id, content, now), id, tempId, OutcomeUpdate(outcome))
  }

  /** Because the provisional message is never inserted, a send whose temporary id
      no message carries ends with the conversation moved to front and nothing else:
      the later status update, success or failure, finds nothing to change. */
  lemma SendOnlyPromotes(convs: seq<LegacyConversation>, selectedId: Option<string>, currentUserId: string,
                         content: string, tempId: int, now: string, outcome: InsertOutcome)
    requires CanSend(selectedId, currentUserId, content)
    requires NoMessageWithId(convs, selectedId.value, tempId)
    ensures AfterSend(convs, selectedId, currentUserId, content, tempId, now, outcome)
         == Promoted(convs, selectedId.value, content, now)
  {
    var id := selectedId.value;
    var p := Promoted(convs, id, content, now);
    PromotedKeepsMessages(convs, id, content, now);
    forall i, j | 0 <= i < |p| && p[i].id == id && 0 <= j < |p[i].messages|
      ensures p[i].messages[j].id != tempId
    {
      var k :| 0 <= k < |convs| && convs[k].id == p[i].id && convs[k].messages == p[i].messages;
    }
    UnsentIdIsInert(p, id, tempId, OutcomeUpdate(outcome));
  }

  // ---------------------------------------------------------------------------
  // The hook's state

  class Chat {
    var conversations: seq<LegacyConversation>
    var selectedId: Option<string>
    var currentUserId: string
    var isLoading: bool

    constructor ()
      ensures conversations == [] && selectedId.None? && currentUserId == "" && !isLoading
    {
      conversations, selectedId, currentUserId, isLoading := [], None, "", false;
    }

    /** The sign-in lookup: a truthy user id becomes the current user. */
    method SetCurrentUser(user: Option<string>)
      modifies this
      ensures currentUserId == if Present(user) then user.value else old(currentUserId)
      ensures conversations == old(conversations) && selectedId == old(selectedId) && isLoading == old(isLoading)
    {
      if Present(user) {
        currentUserId := user.value;
      }
    }

    method SetSelectedId(id: Option<string>)
      modifies this
      ensures selectedId == id
      ensures conversations == old(conversations) && currentUserId == old(currentUserId) && isLoading == old(isLoading)
    {
      selectedId := id;
    }

    /** The start of loadConversations: the loading flag is raised before the query. */
    method BeginLoadConversations()
      modifies this
      ensures isLoading
      ensures conversations == old(conversations) && selectedId == old(selectedId) && currentUserId == old(currentUserId)
    {
      isLoading := true;
    }

    /** The rest of loadConversations, once the query has answered: the flag is
        lowered; an error leaves the list alone; otherwise the rows (none when the
        body is empty) replace it and, when nothing was selected, the first
        conversation is selected. */
    method LoadConversations(response: Response<seq<ConversationRow>>)
      modifies this
      ensures !isLoading && currentUserId == old(currentUserId)
      ensures response.Rejected? ==> conversations == old(conversations) && selectedId == old(selectedId)
      ensures response.Resolved? ==>
        var loaded := Loaded(if response.list.Some? then response.list.value else []);
        && conversations == loaded
        && selectedId == if !Present(old(selectedId)) && |loaded| > 0 then Some(loaded[0].id) else old(selectedId)
    {
      isLoading := false;
      if response.Rejected? {
        return;
      }
      var loaded := Loaded(if response.list.Some? then response.list.value else []);
      conversations := loaded;
      if !Present(selectedId) && |loaded| > 0 {
        selectedId := Some(loaded[0].id);
      }
    }

    /** loadMessages: with a selection and a successful fetch, the fetched messages
        replace those of the selected conversation only. */
    method LoadMessages(response: Response<seq<MessageRow>>)
      modifies this
      ensures selectedId == old(selectedId) && currentUserId == old(currentUserId) && isLoading == old(isLoading)
      ensures conversations ==
        if Present(selectedId) && response.Resolved?
        then WithMessages(old(conversations), selectedId.value,
                          LoadedMessages(if response.list.Some? then response.list.value else []))
        else old(conversations)
    {
      if !Present(selectedId) || response.Rejected? {
        return;
      }
      var ms := LoadedMessages(if response.list.Some? then response.list.value else []);
      conversations := WithMessages(conversations, selectedId.value, ms);
    }

    method UpdateMessageStatus(conversationId: string, tempId: int, u: MessageUpdate)
      modifies this
      ensures conversations == UpdateStatusIn(old(conversations), conversationId, tempId, u)
      ensures selectedId == old(selectedId) && currentUserId == old(currentUserId) && isLoading == old(isLoading)
    {
      conversations := UpdateStatusIn(conversations, conversationId, tempId, u);
    }

    /** sendMessage: after the guard, the conversation moves to front showing the
        text, then the insert outcome is merged into the message with the temporary
        id. Returns whether the guard let the send through. */
    method SendMessage(kind: MessageType, content: string, tempId: int, now: string, outcome: InsertOutcome)
      returns (sent: bool)
      modifies this
      ensures sent == CanSend(old(selectedId), old(currentUserId), content)
      ensures conversations == AfterSend(old(conversations), selectedId, currentUserId, content, tempId, now, outcome)
      ensures selectedId == old(selectedId) && currentUserId == old(currentUserId) && isLoading == old(isLoading)
    {
      sent := CanSend(selectedId, currentUserId, content);
      if !sent {
        return;
      }
      var id := selectedId.value;
      conversations := Promoted(conversations, id, content, now);
      UpdateMessageStatus(id, tempId, OutcomeUpdate(outcome));
    }
  }
}
