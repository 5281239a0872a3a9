/** The older chat page of src/pages/message/chat/index.tsx: the tab and search
    filter over the legacy store's conversations, the selected conversation, and
    the two send handlers (text, and image after an upload). */
module ChatPage {
  import opened Base
  import opened ChatTypes
  import opened LegacyChat

  function DigitChar(d: nat): (r: char)
    requires d < 10
    ensures '0' <= r <= '9' && r as int - '0' as int == d
  {
    ('0' as int + d) as char
  }

  predicate AllDigits(s: string)
  {
    forall i :: 0 <= i < |s| ==> '0' <= s[i] <= '9'
  }

  /** The number a string of decimal digits denotes, most significant digit first. */
  function DecimalValue(s: string): nat
    requires AllDigits(s)
  {
    if s == [] then 0 else 10 * DecimalValue(s[..|s| - 1]) + (s[|s| - 1] as int - '0' as int)
  }

  /** The decimal digits of a natural number, without leading zeros: `String(n)`. */
  function Digits(n: nat): (r: string)
    ensures AllDigits(r)
    ensures DecimalValue(r) == n
    ensures |r| == 1 <==> n < 10
    ensures |r| >= 1 && (r[0] == '0' ==> n == 0)
  {
    if n < 10 then
      var r := [DigitChar(n)];
      assert r[..0] == [];
      r
    else
      var h := Digits(n / 10);
      var r := h + [DigitChar(n % 10)];
      assert r[..|r| - 1] == h;
      r
  }

  /** `String(status)` for an integer status: a minus sign before the digits of a
      negative status. */
  function StatusText(n: int): (r: string)
    ensures |r| >= 1
    ensures r[0] == '-' <==> n < 0
    ensures n >= 0 ==> AllDigits(r) && DecimalValue(r) == n
    ensures n < 0 ==> AllDigits(r[1..]) && DecimalValue(r[1..]) == -n
  {
    if n < 0 then
      var r := "-" + Digits(-n);
      assert r[1..] == Digits(-n);
      r
    else Digits(n)
  }

  /** Different statuses have different texts, so a tab value selects at most one status. */
  lemma StatusTextInjective(a: int, b: int)
    requires StatusText(a) == StatusText(b)
    ensures a == b
  {
  }

  /** A one-digit tab value names exactly that status. */
  lemma StatusTextDigitIff(n: int, d: nat)
    requires d < 10
    ensures StatusText(n) == [DigitChar(d)] <==> n == d
  {
    if StatusText(n) == [DigitChar(d)] {
      assert n >= 0;
      assert [DigitChar(d)][..0] == [];
    }
  }

  /** The tab filter: "-1" passes every status, any other tab the status whose
      decimal text it is. */
  function PassesTab(c: LegacyConversation, tab: string): (r: bool)
    ensures r && tab != "-1" && c.status >= 0 ==> AllDigits(tab) && DecimalValue(tab) == c.status
    ensures r && tab != "-1" && c.status < 0 ==> |tab| >= 1 && tab[0] == '-'
  {
    tab == "-1" || StatusText(c.status) == tab
  }

  /** The search filter: the name contains the search text, letter case kept. */
  function PassesSearch(c: LegacyConversation, search: string): (r: bool)
    ensures search == "" ==> r
    ensures r ==> |search| <= |c.name|
  {
    Includes(c.name, search)
  }

  predicate Passes(c: LegacyConversation, tab: string, search: string)
  {
    PassesTab(c, tab) && PassesSearch(c, search)
  }

  /** filteredConversations. */
  function Filtered(convs: seq<LegacyConversation>, tab: string, search: string): (r: seq<LegacyConversation>)
    ensures IsSubseq(r, convs)
    ensures forall i :: 0 <= i < |r| ==> PassesTab(r[i], tab) && PassesSearch(r[i], search)
    ensures forall i :: 0 <= i < |convs| && PassesTab(convs[i], tab) && PassesSearch(convs[i], search) ==> convs[i] in r
    ensures forall x :: multiset(r)[x] == if PassesTab(x, tab) && PassesSearch(x, search) then multiset(convs)[x] else 0
  {
    FilterCounts((c: LegacyConversation) => Passes(c, tab, search), convs);
    Filter((c: LegacyConversation) => Passes(c, tab, search), convs)
  }

  /** Tab "-1" with an empty search shows every conversation, in order. */
  lemma AllTabEmptySearchShowsAll(convs: seq<LegacyConversation>)
    ensures Filtered(convs, "-1", "") == convs
  {
    assert forall i :: 0 <= i < |convs| ==> Passes(convs[i], "-1", "");
  }

  /** On a one-digit tab, a conversation passes the tab filter exactly when its
      status is that digit. */
  lemma DigitTabSelectsStatus(c: LegacyConversation, d: nat)
    requires d < 10
    ensures PassesTab(c, [DigitChar(d)]) <==> c.status == d
  {
    StatusTextDigitIff(c.status, d);
  }

  /** `conversations.find(c => c.id === selectedId)`. */
  function Selected(convs: seq<LegacyConversation>, selectedId: Option<string>): (r: Option<LegacyConversation>)
    ensures r.Some? ==> selectedId == Some(r.value.id)
    ensures r.Some? ==> exists k :: 0 <= k < |convs| && convs[k] == r.value && forall j :: 0 <= j < k ==> convs[j].id != r.value.id
    ensures r.None? <==> selectedId.None? || forall i :: 0 <= i < |convs| ==> convs[i].id != selectedId.value
  {
    if selectedId.None? then None
    else
      match FindIndex((c: LegacyConversation) => !IsOther(c, selectedId.value), convs)
      case None => None
      case Some(k) => Some(convs[k])
  }

  class Page {
    var tab: string
    var search: string
    const chat: Chat

    constructor ()
      ensures tab == "-1" && search == "" && fresh(chat)
      ensures chat.conversations == [] && chat.selectedId.None? && chat.currentUserId == ""
    {
      tab, search := "-1", "";
      chat := new Chat();
    }

    /** The list handed to the sidebar. */
    function Visible(): seq<LegacyConversation>
      reads this, chat
    {
      Filtered(chat.conversations, tab, search)
    }

    method HandleSendText(text: string, tempId: int, now: string, outcome: InsertOutcome) returns (sent: bool)
      modifies chat
      ensures sent == CanSend(chat.selectedId, chat.currentUserId, text)
      ensures chat.conversations == AfterSend(old(chat.conversations), chat.selectedId, chat.currentUserId, text, tempId, now, outcome)
      ensures chat.selectedId == old(chat.selectedId) && chat.currentUserId == old(chat.currentUserId)
    {
      sent := chat.SendMessage(Text, text, tempId, now, outcome);
    }

    /** handleSendImage: `upload` is the public URL the upload produced, or nothing
        when it failed; without a URL nothing is sent, otherwise the URL is sent as
        an image message. */
    method HandleSendImage(upload: Option<string>, tempId: int, now: string, outcome: InsertOutcome) returns (sent: bool)
      modifies chat
      ensures !Present(upload) ==> !sent && chat.conversations == old(chat.conversations)
      ensures Present(upload) ==>
        && sent == CanSend(chat.selectedId, chat.currentUserId, upload.value)
        && chat.conversations == AfterSend(old(chat.conversations), chat.selectedId, chat.currentUserId, upload.value, tempId, now, outcome)
      ensures chat.selectedId == old(chat.selectedId) && chat.currentUserId == old(chat.currentUserId)
    {
      if !Present(upload) {
        sent := false;
        return;
      }
      sent := chat.SendMessage(Image, upload.value, tempId, now, outcome);
    }
  }
}
