/**
 * The chat window (src/components/MessagingSystem.tsx): sending a message and the
 * relative time shown next to messages and conversations. Times are milliseconds.
 */
module MessagingSystem {
  import opened Wrappers
  import Text

  datatype MessageType = TextMessage | ImageMessage | LocationMessage | BookingMessage

  datatype Message = Message(
    id: string,
    senderId: string,
    senderName: string,
    senderAvatar: string,
    content: string,
    timestamp: int,
    kind: MessageType,
    isRead: bool)

  datatype Conversation = Conversation(
    id: string,
    partnerId: string,
    partnerName: string,
    lastMessage: string,
    lastMessageTime: int,
    unreadCount: nat,
    isOnline: bool)

  /**
   * `user?.id || "current-user"`: the signed-in user's id, or "current-user" when
   * there is no user or the id is empty (falsy). The sender id is never empty.
   */
  function SenderId(userId: Option<string>): (r: string)
    ensures r != ""
    ensures userId.Some? && userId.value != "" ==> r == userId.value
    ensures userId.None? || userId.value == "" ==> r == "current-user"
  {
    if userId.Some? && userId.value != "" then userId.value else "current-user"
  }

  /** The message `handleSendMessage` builds; its id is the send time in decimal. */
  function OutgoingMessage(content: string, now: nat, userId: Option<string>): Message
  {
    Message(Text.NatToString(now), SenderId(userId), "You", "", content, now, TextMessage, false)
  }

  /** The `conversations.map(...)` of a send: only the selected conversation takes the new preview. */
  function UpdatePreview(convs: seq<Conversation>, selected: string, text: string, now: int): (r: seq<Conversation>)
    ensures |r| == |convs|
    ensures forall k :: 0 <= k < |convs| && convs[k].id == selected ==>
      r[k] == convs[k].(lastMessage := text, lastMessageTime := now)
    ensures forall k :: 0 <= k < |convs| && convs[k].id != selected ==> r[k] == convs[k]
  {
    if convs == [] then []
    else [if convs[0].id == selected then convs[0].(lastMessage := text, lastMessageTime := now) else convs[0]]
         + UpdatePreview(convs[1..], selected, text, now)
  }

  /** With no conversation selected by id, a send changes no preview. */
  lemma UpdatePreviewOthersUnchanged(convs: seq<Conversation>, selected: string, text: string, now: int)
    requires forall k :: 0 <= k < |convs| ==> convs[k].id != selected
    ensures UpdatePreview(convs, selected, text, now) == convs
  {
  }

  /** Messages sent at distinct times get distinct ids. */
  lemma OutgoingIdsDistinct(c1: string, t1: nat, c2: string, t2: nat, u: Option<string>)
    requires t1 != t2
    ensures OutgoingMessage(c1, t1, u).id != OutgoingMessage(c2, t2, u).id
  {
    if Text.NatToString(t1) == Text.NatToString(t2) {
      Text.NatToStringInjective(t1, t2);
    }
  }

  class Chat {
    var conversations: seq<Conversation>
    var selectedConversation: string
    var messages: seq<Message>
    var newMessage: string

    constructor (conversations: seq<Conversation>, selected: string, messages: seq<Message>)
      ensures this.conversations == conversations && selectedConversation == selected
      ensures this.messages == messages && newMessage == ""
    {
      this.conversations, selectedConversation := conversations, selected;
      this.messages, newMessage := messages, "";
    }

    /** Typing in the input box. */
    method SetNewMessage(text: string)
      modifies this`newMessage
      ensures newMessage == text
    {
      newMessage := text;
    }

    /** Clicking a conversation in the list. */
    method SelectConversation(id: string)
      modifies this`selectedConversation
      ensures selectedConversation == id
    {
      selectedConversation := id;
    }

    /**
     * `handleSendMessage` at time `now`: a message that is blank once trimmed is
     * ignored; otherwise the untrimmed text is appended as an unread text
     * message, the input is cleared and the selected conversation's preview is updated.
     */
    method SendMessage(now: nat, userId: Option<string>)
      modifies this`messages, this`newMessage, this`conversations
      ensures Text.Trim(old(newMessage)) == "" ==>
        messages == old(messages) && newMessage == old(newMessage) && conversations == old(conversations)
      ensures Text.Trim(old(newMessage)) != "" ==>
        && messages == old(messages) + [OutgoingMessage(old(newMessage), now, userId)]
        && newMessage == ""
        && conversations == UpdatePreview(old(conversations), selectedConversation, old(newMessage), now)
    {
      if Text.Trim(newMessage) == "" {
        return;
      }
      var message := Message(Text.NatToString(now), SenderId(userId), "You", "", newMessage, now,
                             TextMessage, false);
      var sent := newMessage;
      messages := messages + [message];
      newMessage := "";
      conversations := UpdatePreview(conversations, selectedConversation, sent, now);
    }
  }

  /** What a successful send adds: one message at the end, earlier messages untouched. */
  lemma SendAppendsOne(before: seq<Message>, content: string, now: nat, u: Option<string>)
    ensures |before + [OutgoingMessage(content, now, u)]| == |before| + 1
    ensures (before + [OutgoingMessage(content, now, u)])[..|before|] == before
    ensures !OutgoingMessage(content, now, u).isRead && OutgoingMessage(content, now, u).kind == TextMessage
    ensures OutgoingMessage(content, now, u).content == content
    ensures OutgoingMessage(content, now, u).senderId != ""
    ensures OutgoingMessage(content, now, u).senderId == if u.Some? && u.value != "" then u.value else "current-user"
  {
  }

  // ------------------------------------------------------------------ relative time

  const Minute := 60000
  const Hour := 3600000
  const Day := 86400000

  /** What `formatTime` shows; the date itself comes from the locale and is not modelled. */
  datatype TimeLabel = JustNow | MinutesAgo(minutes: nat) | HoursAgo(hours: nat) | LocaleDate

  /** `formatTime` for a difference `diff = now - then` in milliseconds. */
  function FormatTime(diff: int): (r: TimeLabel)
    ensures r == JustNow <==> diff < Minute
    ensures r.MinutesAgo? <==> Minute <= diff < Hour
    ensures r.HoursAgo? <==> Hour <= diff < Day
    ensures r == LocaleDate <==> Day <= diff
    ensures r.MinutesAgo? ==> 1 <= r.minutes <= 59 && r.minutes * Minute <= diff < (r.minutes + 1) * Minute
    ensures r.HoursAgo? ==> 1 <= r.hours <= 23 && r.hours * Hour <= diff < (r.hours + 1) * Hour
  {
    if diff < Minute then JustNow
    else if diff < Hour then MinutesAgo(diff / Minute)
    else if diff < Day then HoursAgo(diff / Hour)
    else LocaleDate
  }

  /** The text shown; `date` is what `toLocaleDateString` gives. */
  function Render(l: TimeLabel, date: string): string
  {
    match l
    case JustNow => "Just now"
    case MinutesAgo(m) => Text.NatToString(m) + "m ago"
    case HoursAgo(h) => Text.NatToString(h) + "h ago"
    case LocaleDate => date
  }

  function Rank(l: TimeLabel): nat
  {
    match l
    case JustNow => 0
    case MinutesAgo(m) => 1
    case HoursAgo(h) => 2
    case LocaleDate => 3
  }

  /** An older time never shows as more recent: the bucket and the number in it only grow. */
  lemma FormatTimeMonotonic(d1: int, d2: int)
    requires d1 <= d2
    ensures Rank(FormatTime(d1)) <= Rank(FormatTime(d2))
    ensures FormatTime(d1).MinutesAgo? && FormatTime(d2).MinutesAgo? ==>
      FormatTime(d1).minutes <= FormatTime(d2).minutes
    ensures FormatTime(d1).HoursAgo? && FormatTime(d2).HoursAgo? ==>
      FormatTime(d1).hours <= FormatTime(d2).hours
  {
  }

  /** The rendered text for sample differences: ten minutes and two hours, as in the initial conversations. */
  lemma RenderExamples(date: string)
    ensures Render(FormatTime(10 * Minute), date) == "10m ago"
    ensures Render(FormatTime(2 * Hour), date) == "2h ago"
    ensures Render(FormatTime(-5), date) == "Just now"
  {
  }
}
