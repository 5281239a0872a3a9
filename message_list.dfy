/** The message view of src/pages/message/chat/message-list.tsx: the date
    separators drawn while rendering the message sequence, the scroll-top load
    trigger and the classification of each message (own or guest's, delivery
    indicator). */
module MessageList {
  import opened Base
  import opened ChatTypes

  /** A separator is drawn after a silence of more than this many minutes. */
  const TimeGapMinutes := 180

  const MsPerMinute := 60000

  /** dayjs `later.diff(earlier, "minute")`: whole minutes, truncated toward zero. */
  function MinutesBetween(later: int, earlier: int): (r: int)
    ensures later >= earlier ==> r >= 0 && r * MsPerMinute <= later - earlier < (r + 1) * MsPerMinute
    ensures later < earlier ==> r <= 0
  {
    var d := later - earlier;
    if d >= 0 then d / MsPerMinute else -((-d) / MsPerMinute)
  }

  /** Message `i` is preceded by a date separator: it is the first message, or more
      than 180 whole minutes passed since the message just before it. */
  function ShowsDate(messages: seq<Message>, i: nat): (r: bool)
    requires i < |messages|
    ensures i == 0 ==> r
    ensures i > 0 && r ==> messages[i].createdAt - messages[i - 1].createdAt > TimeGapMinutes * MsPerMinute
  {
    i == 0 || MinutesBetween(messages[i].createdAt, messages[i - 1].createdAt) > TimeGapMinutes
  }

  /** The render loop: `lastTimestamp` starts empty and takes each message's time
      after that message has been drawn. */
  method DateSeparators(messages: seq<Message>) returns (marks: seq<bool>)
    ensures |marks| == |messages|
    ensures forall i :: 0 <= i < |messages| ==> marks[i] == ShowsDate(messages, i)
  {
    var lastTimestamp: Option<int> := None;
    marks := [];
    var i := 0;
    while i < |messages|
      invariant 0 <= i <= |messages|
      invariant |marks| == i
      invariant forall j :: 0 <= j < i ==> marks[j] == ShowsDate(messages, j)
      invariant lastTimestamp == if i == 0 then None else Some(messages[i - 1].createdAt)
    {
      var current := messages[i].createdAt;
      var shouldShowTime := lastTimestamp.None? || MinutesBetween(current, lastTimestamp.value) > TimeGapMinutes;
      lastTimestamp := Some(current);
      marks := marks + [shouldShowTime];
      i := i + 1;
    }
  }

  /** In milliseconds: a later message gets a separator exactly when it comes at
      least 181 minutes after the previous one; a message stamped earlier than its
      predecessor never does. */
  lemma ShowsDateIffGap(messages: seq<Message>, i: nat)
    requires 0 < i < |messages|
    ensures ShowsDate(messages, i) <==> messages[i].createdAt - messages[i - 1].createdAt >= (TimeGapMinutes + 1) * MsPerMinute
  {
    var later, earlier := messages[i].createdAt, messages[i - 1].createdAt;
    var m := MinutesBetween(later, earlier);
    if later >= earlier {
      if m > TimeGapMinutes {
        assert (TimeGapMinutes + 1) * MsPerMinute <= m * MsPerMinute;
      } else {
        assert (m + 1) * MsPerMinute <= (TimeGapMinutes + 1) * MsPerMinute;
      }
    }
  }

  /** The reference point is the previous message, not the previous separator:
      messages at 0, 100 and 200 minutes get one separator only, although the third
      comes 200 minutes after the last separator. */
  lemma ReferenceIsPreviousMessage(a: Message, b: Message, c: Message)
    requires a.createdAt == 0 && b.createdAt == 100 * MsPerMinute && c.createdAt == 200 * MsPerMinute
    ensures ShowsDate([a, b, c], 0) && !ShowsDate([a, b, c], 1) && !ShowsDate([a, b, c], 2)
    ensures MinutesBetween(c.createdAt, a.createdAt) > TimeGapMinutes
  {
  }

  /** Whether a separator is drawn depends only on the message and its predecessor. */
  lemma ShowsDateIsLocal(messages: seq<Message>, i: nat)
    requires 0 < i < |messages|
    ensures ShowsDate(messages, i) == ShowsDate(messages[i - 1..i + 1], 1)
  {
    assert messages[i - 1..i + 1][0] == messages[i - 1] && messages[i - 1..i + 1][1] == messages[i];
  }

  datatype Side = OwnSide | GuestSide

  /** `!!msg.userId`: the operator's own messages carry a non-empty user id; those
      are drawn on the right without the guest avatar. */
  function SideOf(m: Message): (r: Side)
    ensures r == OwnSide <==> m.userId.Some? && m.userId.value != ""
  {
    if Present(m.userId) then OwnSide else GuestSide
  }

  /** What is drawn under a message's time. */
  datatype Indicator = PendingLabel | ResendAction | NoIndicator

  function IndicatorOf(status: Option<DeliveryStatus>): (r: Indicator)
    ensures r == PendingLabel <==> status == Some(Sending)
    ensures r == ResendAction <==> status == Some(Failed)
    ensures r == NoIndicator <==> status.None? || status == Some(Sent)
  {
    match status
    case Some(Sending) => PendingLabel
    case Some(Failed) => ResendAction
    case _ => NoIndicator
  }

  /** Distance from the top, in pixels, under which older messages are requested. */
  const TopSlack := 50

  /** The scroll listener exists only while the list element is mounted, more pages
      exist and none is loading; it requests older messages near the top when the
      parent passed an `onLoadMore` handler. */
  function LoadsOlder(mounted: bool, hasMore: bool, loading: bool, scrollTop: int, hasHandler: bool): (r: bool)
    ensures r ==> mounted && hasMore && !loading && scrollTop < TopSlack && hasHandler
    ensures mounted && hasMore && !loading && scrollTop < TopSlack && hasHandler ==> r
  {
    if !mounted || !hasMore || loading then false
    else scrollTop < TopSlack && hasHandler
  }
}
