/** The chat page's local rules: picking the first channel on load, the
    guards and trimming of a send, the realtime append, and the channel icons. */
module Community {
  import opened Basics
  import opened Records
  import opened Text

  datatype Channel = Channel(id: string, name: string, description: string, channelType: string)

  datatype Message = Message(id: string, message: string, createdAt: string, userId: string)

  /** The page state: the channel list, the open channel, its messages, the
      input box, whether the user belongs to the open channel, and whether
      the first load is still pending. */
  datatype Chat = Chat(
    channels: seq<Channel>,
    selected: Option<Channel>,
    messages: seq<Message>,
    draft: string,
    isMember: bool,
    loading: bool)

  /** The page before anything is loaded. */
  const InitialChat := Chat([], None, [], "", false, true)

  /** The first load of the page: with rows it stops loading, lists them and
      opens the first, with nothing selected before and no messages yet. */
  lemma FirstLoadOpensFirstChannel(rows: seq<Channel>)
    requires rows != []
    ensures LoadChannels(InitialChat, Channels(Some(rows))) == Chat(rows, Some(rows[0]), [], "", false, false)
  {
  }

  /** What the channel query returns: an error, or the rows (possibly none). */
  datatype ChannelQuery = ChannelsFailed | Channels(data: Option<seq<Channel>>)

  /** `loadChannels`. Whatever happens the page stops loading. On an error
      nothing else changes. Otherwise the list becomes the returned rows
      (empty for none) and, when there is at least one, the first is opened;
      an empty result keeps the open channel. */
  function LoadChannels(chat: Chat, q: ChannelQuery): (r: Chat)
    ensures !r.loading
    ensures q.ChannelsFailed? ==> r == chat.(loading := false)
    ensures q.Channels? ==> r.channels == q.data.GetOr([])
    ensures q.Channels? && r.channels != [] ==> r.selected == Some(r.channels[0])
    ensures q.Channels? && r.channels == [] ==> r.selected == chat.selected
    ensures r.messages == chat.messages && r.draft == chat.draft && r.isMember == chat.isMember
  {
    match q
    case ChannelsFailed => chat.(loading := false)
    case Channels(data) =>
      var rows := data.GetOr([]);
      chat.(channels := rows,
            selected := if |rows| > 0 then Some(rows[0]) else chat.selected,
            loading := false)
  }

  /** After a load that returned rows, the open channel is one of the listed
      channels. */
  lemma LoadedSelectionListed(chat: Chat, rows: seq<Channel>)
    requires rows != []
    ensures LoadChannels(chat, Channels(Some(rows))).selected.Some?
    ensures LoadChannels(chat, Channels(Some(rows))).selected.value in LoadChannels(chat, Channels(Some(rows))).channels
  {
  }

  /** The row the send inserts. */
  datatype MessageInsert = MessageInsert(channelId: string, userId: string, message: string)

  /** The toasts a send can raise. */
  datatype Notice = JoinChannelFirst | SendFailed

  /** The outcome of a send: the page afterwards, the insert issued (if any)
      and the toast shown (if any). */
  datatype Sent = Sent(chat: Chat, insert: Option<MessageInsert>, notice: Option<Notice>)

  /** The first guard of a send: a signed-in user, an open channel and a
      message that is not blank once trimmed. */
  predicate SendAllowed(chat: Chat, user: Option<User>) {
    user.Some? && chat.selected.Some? && Trim(chat.draft) != ""
  }

  /** `sendMessage`. A failing first guard does nothing at all. A non-member
      gets the join toast and nothing is inserted. A member's trimmed text is
      inserted into the open channel under their id; the input is cleared
      only when the insert succeeds, and a failed insert raises the error
      toast. Nothing but the input ever changes. */
  function SendMessage(chat: Chat, user: Option<User>, insertOk: bool): (r: Sent)
    ensures !SendAllowed(chat, user) ==> r == Sent(chat, None, None)
    ensures r.insert.Some? <==> SendAllowed(chat, user) && chat.isMember
    ensures r.insert.Some? ==>
              r.insert.value == MessageInsert(chat.selected.value.id, user.value.id, Trim(chat.draft))
    ensures r.notice == Some(JoinChannelFirst) <==> SendAllowed(chat, user) && !chat.isMember
    ensures r.notice == Some(SendFailed) <==> r.insert.Some? && !insertOk
    ensures r.chat.draft == chat.draft <==> !(r.insert.Some? && insertOk)
    ensures r.chat.draft != chat.draft ==> r.chat.draft == ""
    ensures r.chat.(draft := chat.draft) == chat
  {
    if !SendAllowed(chat, user) then Sent(chat, None, None)
    else if !chat.isMember then Sent(chat, None, Some(JoinChannelFirst))
    else
      var insert := Some(MessageInsert(chat.selected.value.id, user.value.id, Trim(chat.draft)));
      if insertOk then Sent(chat.(draft := ""), insert, None)
      else Sent(chat, insert, Some(SendFailed))
  }

  /** A draft of white space alone is never sent, whoever sends it. */
  lemma BlankNeverSent(chat: Chat, user: Option<User>, insertOk: bool)
    requires AllSpace(chat.draft)
    ensures SendMessage(chat, user, insertOk) == Sent(chat, None, None)
  {
    TrimEmptyIffAllSpace(chat.draft);
  }

  /** The text sent is the input with its surrounding white space cut off:
      it is non-empty, neither starts nor ends with white space, and sits in
      the input with only white space around it. */
  lemma SentTextIsTrimmedDraft(chat: Chat, user: Option<User>, insertOk: bool)
    requires SendMessage(chat, user, insertOk).insert.Some?
    ensures var text := SendMessage(chat, user, insertOk).insert.value.message;
            && text != ""
            && Trimmed(text)
            && exists i :: 0 <= i <= |chat.draft| - |text| && chat.draft[i..i + |text|] == text
                           && AllSpace(chat.draft[..i]) && AllSpace(chat.draft[i + |text|..])
  {
  }

  /** A successful send cannot be repeated by pressing send again: the
      cleared input fails the first guard. */
  lemma NoDoubleSend(chat: Chat, user: Option<User>, ok: bool)
    requires SendMessage(chat, user, true).insert.Some?
    ensures SendMessage(SendMessage(chat, user, true).chat, user, ok).insert.None?
  {
    TrimEmptyIffAllSpace("");
  }

  /** The realtime subscription's insert handler: the new message goes to
      the end, every earlier message stays where it was, and nothing else
      changes. */
  function OnRealtimeInsert(chat: Chat, m: Message): (r: Chat)
    ensures |r.messages| == |chat.messages| + 1
    ensures r.messages[..|chat.messages|] == chat.messages
    ensures r.messages[|chat.messages|] == m
    ensures r.(messages := chat.messages) == chat
  {
    chat.(messages := chat.messages + [m])
  }

  /** Delivering a batch of inserts, one after another. */
  function ReceiveAll(chat: Chat, ms: seq<Message>): Chat
    decreases |ms|
  {
    if ms == [] then chat else ReceiveAll(OnRealtimeInsert(chat, ms[0]), ms[1..])
  }

  /** A batch of inserts lands after the existing messages, in delivery
      order, and touches nothing else. */
  lemma {:induction false} ReceiveAllAppends(chat: Chat, ms: seq<Message>)
    ensures ReceiveAll(chat, ms).messages == chat.messages + ms
    ensures ReceiveAll(chat, ms).(messages := chat.messages) == chat
    decreases |ms|
  {
    if ms != [] {
      var next := OnRealtimeInsert(chat, ms[0]);
      ReceiveAllAppends(next, ms[1..]);
      assert next.messages == chat.messages + [ms[0]];
      assert chat.messages + [ms[0]] + ms[1..] == chat.messages + ms;
    }
  }

  /** The icon beside a channel name. */
  datatype Icon = CalendarIcon | UsersIcon | MessageCircleIcon

  /** `getChannelIcon`: events channels get the calendar, learning channels
      the people icon, and every other type the speech bubble. */
  function ChannelIcon(channelType: string): (icon: Icon)
    ensures icon == CalendarIcon <==> channelType == "events"
    ensures icon == UsersIcon <==> channelType == "learning"
    ensures icon == MessageCircleIcon <==> channelType != "events" && channelType != "learning"
  {
    match channelType
    case "events" => CalendarIcon
    case "learning" => UsersIcon
    case _ => MessageCircleIcon
  }
}
