/** The per-conversation message cache of
    src/pages/message/chat/useConversationMessagesCache.ts: a dictionary from
    conversation id to that conversation's messages and its own pagination
    cursor, with older pages prepended, live messages appended and the
    optimistic-send state machine (sending, then sent or failed, matched by the
    provisional id). */
module MessageCache {
  import opened Base
  import opened ChatTypes
  import MessageList

  /** Messages are fetched fifteen at a time. */
  const PageSize := 15

  datatype CachedState = CachedState(messages: seq<Message>, page: int, hasMore: bool, loading: bool)

  /** What a conversation without a cache entry reads as. */
  const Empty := CachedState([], 1, true, false)

  type Cache = map<string, CachedState>

  /** The key `conversationId ?? ""`. */
  function KeyOf(id: Option<string>): string
  {
    if id.Some? then id.value else ""
  }

  /** `cache[key] ?? default`. */
  function Lookup(cache: Cache, key: string): (r: CachedState)
    ensures key in cache ==> r == cache[key]
    ensures key !in cache ==> r.messages == [] && r.page == 1 && r.hasMore && !r.loading
  {
    if key in cache then cache[key] else Empty
  }

  /** Everything outside key `k` is as in `cache`. */
  predicate OthersUnchanged(cache: Cache, r: Cache, k: string)
  {
    forall j :: j in cache && j != k ==> j in r && r[j] == cache[j]
  }

  // ---------------------------------------------------------------------------
  // loadMore

  /** The guard at the top of loadMore: a conversation is open, it is not
      loading and it is not exhausted. */
  predicate CanLoad(cache: Cache, id: Option<string>)
  {
    Present(id) && !Lookup(cache, id.value).loading && Lookup(cache, id.value).hasMore
  }

  /** One loadMore call for conversation `id` whose fetch yields `outcome`. */
  function AfterLoadMore(cache: Cache, id: Option<string>, outcome: Response<seq<Message>>): (r: Cache)
    ensures !CanLoad(cache, id) ==> r == cache
    ensures CanLoad(cache, id) ==>
      var cur := Lookup(cache, id.value);
      && r.Keys == cache.Keys + {id.value}
      && OthersUnchanged(cache, r, id.value)
      && !r[id.value].loading
      && (outcome.Rejected? ==> r[id.value] == cur)
      && (outcome.Resolved? ==>
            var fetched := if outcome.list.Some? then outcome.list.value else [];
            && r[id.value].messages == fetched + cur.messages
            && r[id.value].page == cur.page + 1
            && r[id.value].hasMore == (|fetched| == PageSize))
  {
    if !CanLoad(cache, id) then cache
    else
      var cur := Lookup(cache, id.value);
      match outcome
      case Rejected => cache[id.value := cur.(loading := false)]
      case Resolved(list) =>
        var newList := if list.Some? then list.value else [];
        cache[id.value := CachedState(newList + cur.messages, cur.page + 1, |newList| == PageSize, false)]
  }

  /** The effect on opening a conversation: load when it has no entry or no
      messages yet. */
  function NeedsFirstLoad(cache: Cache, id: Option<string>): (r: bool)
    ensures r <==> Present(id) && Lookup(cache, id.value).messages == []
  {
    Present(id) && (id.value !in cache || cache[id.value].messages == [])
  }

  // ---------------------------------------------------------------------------
  // appendMessage, replaceMessage, markMessageFailed

  /** appendMessage: `msg` goes to the tail of conversation `id`, whose entry is
      created with the default cursor if there is none. */
  function AfterAppend(cache: Cache, id: Option<string>, msg: Message): (r: Cache)
    ensures !Present(id) ==> r == cache
    ensures Present(id) ==>
      var cur := Lookup(cache, id.value);
      && r.Keys == cache.Keys + {id.value}
      && OthersUnchanged(cache, r, id.value)
      && r[id.value] == cur.(messages := cur.messages + [msg])
  {
    if !Present(id) then cache
    else
      var cur := Lookup(cache, id.value);
      cache[id.value := cur.(messages := cur.messages + [msg])]
  }

  /** `messages.map(m => m.id === tempId ? newMsg : m)`. */
  function ReplaceById(ms: seq<Message>, tempId: int, newMsg: Message): (r: seq<Message>)
    ensures |r| == |ms|
    ensures forall i :: 0 <= i < |ms| ==> r[i] == if ms[i].id == tempId then newMsg else ms[i]
  {
    if ms == [] then []
    else [if ms[0].id == tempId then newMsg else ms[0]] + ReplaceById(ms[1..], tempId, newMsg)
  }

  /** `messages.map(m => m.id === tempId ? { ...m, status: "failed" } : m)`. */
  function MarkFailedById(ms: seq<Message>, tempId: int): (r: seq<Message>)
    ensures |r| == |ms|
    ensures forall i :: 0 <= i < |ms| ==> r[i] == if ms[i].id == tempId then ms[i].(status := Some(Failed)) else ms[i]
  {
    if ms == [] then []
    else [if ms[0].id == tempId then ms[0].(status := Some(Failed)) else ms[0]] + MarkFailedById(ms[1..], tempId)
  }

  /** replaceMessage on the open conversation `id`: nothing happens when it has
      no entry; otherwise only messages whose id is `tempId` change. */
  function AfterReplace(cache: Cache, id: Option<string>, tempId: int, newMsg: Message): (r: Cache)
    ensures !Present(id) || id.value !in cache ==> r == cache
    ensures r.Keys == cache.Keys && OthersUnchanged(cache, r, KeyOf(id))
    ensures Present(id) && id.value in cache ==>
      r[id.value] == cache[id.value].(messages := ReplaceById(cache[id.value].messages, tempId, newMsg))
  {
    if !Present(id) || id.value !in cache then cache
    else
      var e := cache[id.value];
      cache[id.value := e.(messages := ReplaceById(e.messages, tempId, newMsg))]
  }

  /** markMessageFailed on the open conversation `id`. */
  function AfterMarkFailed(cache: Cache, id: Option<string>, tempId: int): (r: Cache)
    ensures !Present(id) || id.value !in cache ==> r == cache
    ensures r.Keys == cache.Keys && OthersUnchanged(cache, r, KeyOf(id))
    ensures Present(id) && id.value in cache ==>
      r[id.value] == cache[id.value].(messages := MarkFailedById(cache[id.value].messages, tempId))
  {
    if !Present(id) || id.value !in cache then cache
    else
      var e := cache[id.value];
      cache[id.value := e.(messages := MarkFailedById(e.messages, tempId))]
  }

  // ---------------------------------------------------------------------------
  // sendMessage

  /** What the backend answers to createMessage: the durable id and creation
      time, or an exception. */
  datatype SendOutcome = Delivered(id: int, createdAt: int) | NotDelivered

  /** The provisional entry; `tempId` and `now` stand for `Date.now()`. */
  function Provisional(tempId: int, userId: Option<string>, kind: MessageType, content: string, now: int): Message
  {
    Message(tempId, userId, None, kind, content, now, Some(Sending))
  }

  /** The entry the provisional one turns into once the send settles. */
  function Settled(temp: Message, outcome: SendOutcome): Message
  {
    match outcome
    case Delivered(id, createdAt) => temp.(id := id, createdAt := createdAt, status := Some(Sent))
    case NotDelivered => temp.(status := Some(Failed))
  }

  /** The settling callbacks on conversation `id`: the provisional entry `temp` is
      replaced by the stored message when delivered, marked failed otherwise. */
  function AfterSettle(cache: Cache, id: Option<string>, temp: Message, outcome: SendOutcome): (r: Cache)
    ensures r.Keys == cache.Keys && OthersUnchanged(cache, r, KeyOf(id))
    ensures Present(id) && id.value in cache ==>
      r[id.value] == cache[id.value].(messages := if outcome.Delivered?
        then ReplaceById(cache[id.value].messages, temp.id, Settled(temp, outcome))
        else MarkFailedById(cache[id.value].messages, temp.id))
  {
    match outcome
    case Delivered(_, _) => AfterReplace(cache, id, temp.id, Settled(temp, outcome))
    case NotDelivered => AfterMarkFailed(cache, id, temp.id)
  }

  /** sendMessage: append the provisional entry, then replace it or mark it failed. */
  function AfterSend(cache: Cache, id: Option<string>, userId: Option<string>, kind: MessageType,
                     content: string, tempId: int, now: int, outcome: SendOutcome): (r: Cache)
    ensures !Present(id) || IsBlank(content) ==> r == cache
  {
    if !Present(id) || IsBlank(content) then cache
    else
      var temp := Provisional(tempId, userId, kind, content, now);
      AfterSettle(AfterAppend(cache, id, temp), id, temp, outcome)
  }

  /** With a provisional id no cached message of that conversation already has,
      a send leaves exactly one new entry, at the tail: `sent` with the server's
      id and time when delivered, `failed` otherwise, and never still `sending`.
      Page, hasMore, loading and every other conversation are untouched. */
  lemma SendSettlesOnce(cache: Cache, id: Option<string>, userId: Option<string>, kind: MessageType,
                        content: string, tempId: int, now: int, outcome: SendOutcome)
    requires Present(id) && !IsBlank(content)
    requires forall m :: m in Lookup(cache, id.value).messages ==> m.id != tempId
    ensures var r := AfterSend(cache, id, userId, kind, content, tempId, now, outcome);
      var cur := Lookup(cache, id.value);
      var final := Settled(Provisional(tempId, userId, kind, content, now), outcome);
      && r.Keys == cache.Keys + {id.value}
      && OthersUnchanged(cache, r, id.value)
      && r[id.value] == cur.(messages := cur.messages + [final])
      && (final.status == Some(Sent) <==> outcome.Delivered?)
      && (final.status == Some(Failed) <==> outcome.NotDelivered?)
      && (outcome.Delivered? ==> final.id == outcome.id && final.createdAt == outcome.createdAt)
  {
    var cur := Lookup(cache, id.value);
    var temp := Provisional(tempId, userId, kind, content, now);
    var final := Settled(temp, outcome);
    var ms := cur.messages + [temp];
    assert forall i :: 0 <= i < |cur.messages| ==> ms[i] == cur.messages[i] && ms[i].id != tempId;
    match outcome
    case Delivered(_, _) =>
      assert ReplaceById(ms, tempId, final) == cur.messages + [final];
    case NotDelivered =>
      assert MarkFailedById(ms, tempId) == cur.messages + [final];
  }

  /** The settling callbacks keep the conversation the send began on: when the
      operator opens another conversation `b` while the request for `a` is in
      flight, `a` still ends with the settled entry at its tail, never `sending`. */
  lemma SwitchMidSendSettlesOrigin(cache: Cache, a: string, b: string, userId: Option<string>, kind: MessageType,
                                   content: string, tempId: int, now: int, firstPage: Response<seq<Message>>, outcome: SendOutcome)
    requires a != "" && a != b && !IsBlank(content)
    requires forall m :: m in Lookup(cache, a).messages ==> m.id != tempId
    ensures var temp := Provisional(tempId, userId, kind, content, now);
      var sent := AfterAppend(cache, Some(a), temp);
      var switched := (if NeedsFirstLoad(sent, Some(b)) then AfterLoadMore(sent, Some(b), firstPage) else sent);
      var r := AfterSettle(switched, Some(a), temp, outcome);
      var cur := Lookup(cache, a);
      && r[a] == cur.(messages := cur.messages + [Settled(temp, outcome)])
      && r[a].messages[|cur.messages|].status != Some(Sending)
  {
    var temp := Provisional(tempId, userId, kind, content, now);
    var sent := AfterAppend(cache, Some(a), temp);
    var switched := if NeedsFirstLoad(sent, Some(b)) then AfterLoadMore(sent, Some(b), firstPage) else sent;
    assert a in sent;
    assert a in switched && switched[a] == sent[a];
    SendSettlesOnce(cache, Some(a), userId, kind, content, tempId, now, outcome);
    assert AfterSettle(switched, Some(a), temp, outcome)[a] == AfterSettle(sent, Some(a), temp, outcome)[a];
  }

  /** While createMessage is in flight, the open conversation shows exactly one
      new entry at its tail: the provisional message, `sending`, which the view
      labels as pending. Its cursor and every other conversation are untouched. */
  lemma SendInFlight(cache: Cache, id: Option<string>, userId: Option<string>, kind: MessageType,
                     content: string, tempId: int, now: int)
    requires Present(id)
    ensures var r := AfterAppend(cache, id, Provisional(tempId, userId, kind, content, now));
      var cur := Lookup(cache, id.value);
      var ms := r[id.value].messages;
      && |ms| == |cur.messages| + 1
      && ms[..|cur.messages|] == cur.messages
      && ms[|cur.messages|].id == tempId && ms[|cur.messages|].userId == userId
      && ms[|cur.messages|].content == content && ms[|cur.messages|].createdAt == now
      && ms[|cur.messages|].status == Some(Sending)
      && MessageList.IndicatorOf(ms[|cur.messages|].status) == MessageList.PendingLabel
      && r[id.value].page == cur.page && r[id.value].hasMore == cur.hasMore && r[id.value].loading == cur.loading
      && OthersUnchanged(cache, r, id.value)
  {
    var cur := Lookup(cache, id.value);
    var ms := cur.messages + [Provisional(tempId, userId, kind, content, now)];
    assert ms[..|cur.messages|] == cur.messages;
  }

  /** The provisional id is matched by value: an earlier message that happens to
      carry the same id (two sends within one millisecond) is overwritten too. */
  lemma ReusedIdRewritesEarlier(cache: Cache, id: Option<string>, userId: Option<string>, kind: MessageType,
                                content: string, tempId: int, now: int, outcome: SendOutcome, j: nat)
    requires Present(id) && !IsBlank(content)
    requires j < |Lookup(cache, id.value).messages| && Lookup(cache, id.value).messages[j].id == tempId
    ensures var r := AfterSend(cache, id, userId, kind, content, tempId, now, outcome);
      var old_j := Lookup(cache, id.value).messages[j];
      && |r[id.value].messages| == |Lookup(cache, id.value).messages| + 1
      && (outcome.Delivered? ==> r[id.value].messages[j] == Settled(Provisional(tempId, userId, kind, content, now), outcome))
      && (outcome.NotDelivered? ==> r[id.value].messages[j] == old_j.(status := Some(Failed)))
  {
    var cur := Lookup(cache, id.value);
    var ms := cur.messages + [Provisional(tempId, userId, kind, content, now)];
    assert ms[j] == cur.messages[j];
  }

  /** Display order: an older page lands before what is cached, a live message
      after it. */
  lemma PrependThenAppend(cache: Cache, id: Option<string>, list: seq<Message>, msg: Message)
    requires CanLoad(cache, id)
    ensures var r := AfterAppend(AfterLoadMore(cache, id, Resolved(Some(list))), id, msg);
      r[id.value].messages == list + Lookup(cache, id.value).messages + [msg]
  {
  }

  // ---------------------------------------------------------------------------
  // The hook's state

  class MessagesCache {
    var cache: Cache
    /** The conversation the hook is rendered for. */
    var conversationId: Option<string>
    const currentUserId: Option<string>

    constructor (currentUserId: Option<string>)
      ensures cache == map[] && conversationId == None && this.currentUserId == currentUserId
    {
      cache := map[];
      conversationId := None;
      this.currentUserId := currentUserId;
    }

    /** The state rendered for the open conversation. */
    function Current(): CachedState
      reads this
    {
      Lookup(cache, KeyOf(conversationId))
    }

    /** loadMore; returns the page requested, or None when the guard returns early. */
    method LoadMore(outcome: Response<seq<Message>>) returns (request: Option<int>)
      modifies this
      ensures conversationId == old(conversationId)
      ensures request == if CanLoad(old(cache), conversationId) then Some(old(Current()).page) else None
      ensures cache == AfterLoadMore(old(cache), conversationId, outcome)
    {
      if !Present(conversationId) || Current().loading || !Current().hasMore {
        return None;
      }
      var key := conversationId.value;
      var current := Current();
      request := Some(current.page);
      cache := cache[key := current.(loading := true)];
      match outcome
      case Rejected =>
        cache := cache[key := current.(loading := false)];
      case Resolved(list) =>
        var newList := if list.Some? then list.value else [];
        cache := cache[key := CachedState(newList + current.messages, current.page + 1, |newList| == PageSize, false)];
    }

    method AppendMessage(id: Option<string>, msg: Message)
      modifies this
      ensures conversationId == old(conversationId)
      ensures cache == AfterAppend(old(cache), id, msg)
    {
      if !Present(id) {
        return;
      }
      var existing := Lookup(cache, id.value);
      cache := cache[id.value := existing.(messages := existing.messages + [msg])];
    }

    /** replaceMessage of the render whose conversation was `id`: the callback
        closes over that render's conversation, not over the one open now. */
    method ReplaceMessageIn(id: Option<string>, tempId: int, newMsg: Message)
      modifies this
      ensures conversationId == old(conversationId)
      ensures cache == AfterReplace(old(cache), id, tempId, newMsg)
    {
      if !Present(id) || id.value !in cache {
        return;
      }
      var existing := cache[id.value];
      cache := cache[id.value := existing.(messages := ReplaceById(existing.messages, tempId, newMsg))];
    }

    /** markMessageFailed of the render whose conversation was `id`. */
    method MarkMessageFailedIn(id: Option<string>, tempId: int)
      modifies this
      ensures conversationId == old(conversationId)
      ensures cache == AfterMarkFailed(old(cache), id, tempId)
    {
      if !Present(id) || id.value !in cache {
        return;
      }
      var existing := cache[id.value];
      cache := cache[id.value := existing.(messages := MarkFailedById(existing.messages, tempId))];
    }

    /** replaceMessage of the current render. */
    method ReplaceMessage(tempId: int, newMsg: Message)
      modifies this
      ensures conversationId == old(conversationId)
      ensures cache == AfterReplace(old(cache), conversationId, tempId, newMsg)
    {
      ReplaceMessageIn(conversationId, tempId, newMsg);
    }

    /** markMessageFailed of the current render. */
    method MarkMessageFailed(tempId: int)
      modifies this
      ensures conversationId == old(conversationId)
      ensures cache == AfterMarkFailed(old(cache), conversationId, tempId)
    {
      MarkMessageFailedIn(conversationId, tempId);
    }

    /** The first half of sendMessage: the guard, then the provisional entry is
        appended; `tempId` and `now` are the values `Date.now()` gives. Returns
        whether a send was issued and the conversation the send belongs to, which
        the settling callbacks keep. */
    method BeginSend(kind: MessageType, content: string, tempId: int, now: int) returns (issued: bool, target: Option<string>)
      modifies this
      ensures conversationId == old(conversationId) && target == old(conversationId)
      ensures issued == (Present(conversationId) && !IsBlank(content))
      ensures cache == if issued then AfterAppend(old(cache), conversationId, Provisional(tempId, currentUserId, kind, content, now)) else old(cache)
    {
      target := conversationId;
      if !Present(conversationId) || IsBlank(content) {
        return false, target;
      }
      issued := true;
      AppendMessage(conversationId, Provisional(tempId, currentUserId, kind, content, now));
    }

    /** The second half, once createMessage has answered: in the conversation
        `target` the send began on, whichever is open now, the provisional entry
        `temp` is replaced by the stored message, or marked failed. */
    method SettleSend(target: Option<string>, temp: Message, outcome: SendOutcome)
      modifies this
      ensures conversationId == old(conversationId)
      ensures cache == AfterSettle(old(cache), target, temp, outcome)
    {
      match outcome
      case Delivered(_, _) => ReplaceMessageIn(target, temp.id, Settled(temp, outcome));
      case NotDelivered => MarkMessageFailedIn(target, temp.id);
    }

    /** sendMessage as a whole, with `outcome` what createMessage answers. */
    method SendMessage(kind: MessageType, content: string, tempId: int, now: int, outcome: SendOutcome)
      returns (issued: bool)
      modifies this
      ensures conversationId == old(conversationId)
      ensures issued == (Present(conversationId) && !IsBlank(content))
      ensures cache == AfterSend(old(cache), conversationId, currentUserId, kind, content, tempId, now, outcome)
    {
      var target;
      issued, target := BeginSend(kind, content, tempId, now);
      if issued {
        SettleSend(target, Provisional(tempId, currentUserId, kind, content, now), outcome);
      }
    }

    /** The hook is rendered for conversation `id`; the first-load effect fetches
        its first page when nothing is cached for it. */
    method Open(id: Option<string>, outcome: Response<seq<Message>>) returns (request: Option<int>)
      modifies this
      ensures conversationId == id
      ensures cache == if NeedsFirstLoad(old(cache), id) then AfterLoadMore(old(cache), id, outcome) else old(cache)
    {
      conversationId := id;
      request := None;
      if NeedsFirstLoad(cache, id) {
        request := LoadMore(outcome);
      }
    }
  }
}
