/** The incoming-message event and the pure classifiers that run before the
    action chain: chat type, card type, message type, the mention check and
    the session-id fallback. */
module Events {
  import opened Base

  /** One entry of the event's mention list (`Name` is the mentioned user's display name). */
  datatype MentionEvent = MentionEvent(name: string)

  /** The message part of a receive event. `ChatType` and `RootId` may be
      missing (`nil` pointers); the other pointer fields are taken as present. */
  datatype EventMessage = EventMessage(
    messageId: string,
    rootId: Option<string>,
    chatId: string,
    chatType: Option<string>,
    messageType: string,
    content: string,
    mentions: seq<MentionEvent>)

  /** `event.Event`, whose `Message` may be nil. */
  datatype EventBody = EventBody(message: Option<EventMessage>)

  /** A receive event, whose `Event` may be nil; a nil event itself is `None`
      wherever an `Option<ReceiveEvent>` is taken. */
  datatype ReceiveEvent = ReceiveEvent(body: Option<EventBody>)

  /** The handler kinds, named "group", "personal" and "otherChat". */
  datatype HandlerType = GroupHandler | UserHandler | OtherChat

  function HandlerName(h: HandlerType): (name: string)
    ensures h == GroupHandler <==> name == "group"
    ensures h == UserHandler <==> name == "personal"
    ensures h == OtherChat <==> name == "otherChat"
  {
    match h
    case GroupHandler => "group"
    case UserHandler => "personal"
    case OtherChat => "otherChat"
  }

  /** The message of an event whose pointer chain event, Event, Message is complete. */
  function MessageOf(event: Option<ReceiveEvent>): (m: Option<EventMessage>)
    ensures m.Some? <==> event.Some? && event.value.body.Some? && event.value.body.value.message.Some?
  {
    if event.Some? && event.value.body.Some? then event.value.body.value.message else None
  }

  /** `judgeChatType`: "group" chats go to the group handler, "p2p" chats to
      the personal one; anything else, or a broken event, is "otherChat". */
  function JudgeChatType(event: Option<ReceiveEvent>): (h: HandlerType)
    ensures h == GroupHandler <==> MessageOf(event).Some? && MessageOf(event).value.chatType == Some("group")
    ensures h == UserHandler <==> MessageOf(event).Some? && MessageOf(event).value.chatType == Some("p2p")
    ensures MessageOf(event).None? ==> h == OtherChat
  {
    var m := MessageOf(event);
    if m.None? || m.value.chatType.None? then OtherChat
    else if m.value.chatType.value == "group" then GroupHandler
    else if m.value.chatType.value == "p2p" then UserHandler
    else OtherChat
  }

  /** A value of a card action's value map: a string, or anything else. */
  datatype CardValue = Str(s: string) | NonString

  /** `judgeCardType`: the card's "chatType" value names the handler directly;
      note that the personal handler is "personal" here, not "p2p". */
  function JudgeCardType(value: map<string, CardValue>): (h: HandlerType)
    ensures h == GroupHandler <==> "chatType" in value && value["chatType"] == Str("group")
    ensures h == UserHandler <==> "chatType" in value && value["chatType"] == Str("personal")
  {
    if "chatType" !in value then OtherChat
    else if value["chatType"] == Str("group") then GroupHandler
    else if value["chatType"] == Str("personal") then UserHandler
    else OtherChat
  }

  /** The two classifiers disagree on private chats: an event reaches the
      personal handler only through "p2p" and a card only through
      "personal", so neither accepts the other's spelling. */
  lemma ChatAndCardSpellings(event: Option<ReceiveEvent>, value: map<string, CardValue>)
    ensures JudgeChatType(event) == UserHandler ==> MessageOf(event).value.chatType == Some("p2p")
    ensures JudgeCardType(value) == UserHandler ==> value["chatType"] == Str("personal")
    ensures MessageOf(event).Some? && MessageOf(event).value.chatType == Some("personal") ==> JudgeChatType(event) == OtherChat
    ensures "chatType" in value && value["chatType"] == Str("p2p") ==> JudgeCardType(value) == OtherChat
  {
  }

  predicate IsSupportedType(msgType: string) {
    msgType == "text" || msgType == "image" || msgType == "audio"
  }

  /** `judgeMsgType`: text, image and audio pass through, anything else is an error. */
  function JudgeMsgType(msgType: string): (r: Result<string>)
    ensures r.Ok? <==> IsSupportedType(msgType)
    ensures r.Ok? ==> r.value == msgType
    ensures r.Err? ==> r.msg == "unknown message type: " + msgType
  {
    if IsSupportedType(msgType) then Ok(msgType) else Err("unknown message type: " + msgType)
  }

  /** `judgeIfMentionMe`: exactly one mention, and it names the bot. */
  function JudgeIfMentionMe(mentions: seq<MentionEvent>, botName: string): (me: bool)
    ensures me <==> |mentions| == 1 && mentions[0].name == botName
  {
    if |mentions| != 1 then false else mentions[0].name == botName
  }

  /** The bot counts as mentioned exactly when the mention list is the bot
      alone: mentioning it together with anyone else does not count. */
  lemma MentionAlone(mentions: seq<MentionEvent>, botName: string)
    ensures JudgeIfMentionMe(mentions, botName) <==> mentions == [MentionEvent(botName)]
    ensures |mentions| >= 2 ==> !JudgeIfMentionMe(mentions, botName)
  {
    if JudgeIfMentionMe(mentions, botName) {
      assert mentions == [mentions[0]];
    }
  }

  /** The session a message belongs to: its thread root when it has a
      non-empty one, else the message itself. */
  function SessionIdOf(rootId: Option<string>, msgId: string): (id: string)
    ensures rootId.Some? && rootId.value != "" ==> id == rootId.value
    ensures rootId.None? || rootId.value == "" ==> id == msgId
  {
    if rootId.None? || rootId.value == "" then msgId else rootId.value
  }

  /** Replies in one thread share a session; unthreaded messages each start their own. */
  lemma SessionsOfThread(root: string, m1: string, m2: string)
    ensures root != "" ==> SessionIdOf(Some(root), m1) == SessionIdOf(Some(root), m2)
    ensures m1 != m2 ==> SessionIdOf(None, m1) != SessionIdOf(None, m2)
    ensures m1 != m2 ==> SessionIdOf(Some(""), m1) != SessionIdOf(Some(""), m2)
  {
  }

  /** What the actions know about the message being handled. `fileKey` and
      `imageKey` are not part of this model. */
  datatype MsgInfo = MsgInfo(
    handlerType: HandlerType,
    msgType: string,
    msgId: string,
    chatId: string,
    qParsed: string,
    sessionId: string,
    mentions: seq<MentionEvent>)
}
