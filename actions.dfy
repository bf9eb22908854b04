/** What each gate and command action of the chain does, as a function of the
    message, the session history and the oracles. The handler in module
    Handlers runs each action and is proved to have exactly these effects. */
module Actions {
  import opened Base
  import opened Text
  import opened Types
  import opened Initialization
  import opened Web
  import opened Events
  import opened Environment
  import opened MessageFlow

  /** `ProcessMentionAction`: private chats always pass; group messages pass
      only when they mention the bot alone. */
  function MentionPasses(info: MsgInfo, botName: string): (pass: bool)
    ensures info.handlerType == UserHandler ==> pass
    ensures info.handlerType == GroupHandler ==> (pass <==> JudgeIfMentionMe(info.mentions, botName))
    ensures info.handlerType == OtherChat ==> !pass
  {
    if info.handlerType == UserHandler then true
    else if info.handlerType == GroupHandler then JudgeIfMentionMe(info.mentions, botName)
    else false
  }

  /** No effect and let the chain go on. */
  function Pass(): Effects {
    Effects([], None, [], true)
  }

  /** Send `o` and stop the chain, without touching the session. */
  function Stop(o: Outgoing): Effects {
    Effects([], None, [o], false)
  }

  const EmptyPrompt: string := "🤖️：你想知道什么呢~"

  /** `EmptyAction`: an empty question is answered with a prompt to the chat. */
  function EmptySpec(info: MsgInfo): (e: Effects)
    ensures e.ok <==> |info.qParsed| != 0
    ensures e.requests == [] && e.session == None
    ensures !e.ok ==> e.sent == [Send(info.chatId, EmptyPrompt)]
    ensures e.ok ==> e.sent == []
  {
    if |info.qParsed| == 0 then Stop(Send(info.chatId, EmptyPrompt)) else Pass()
  }

  /** `ClearAction`: "/clear" or "清除" asks for confirmation with a card. */
  function ClearSpec(info: MsgInfo, w: World): Effects {
    if w.trimEqual(info.qParsed, "/clear", "清除") then Stop(ClearCacheCard(info.sessionId, info.msgId)) else Pass()
  }

  /** `HelpAction`: "/help" or "帮助" sends the help card. */
  function HelpSpec(info: MsgInfo, w: World): Effects {
    if w.trimEqual(info.qParsed, "/help", "帮助") then Stop(HelpCard(info.sessionId, info.msgId)) else Pass()
  }

  const BalanceFailedText: string := "查询余额失败，请稍后再试"

  /** `BalanceAction`: "/balance" or "余额" sends the balance card, or a
      failure reply when the balance cannot be read. */
  function BalanceSpec(info: MsgInfo, w: World): Effects {
    if w.trimEqual(info.qParsed, "/balance", "余额") then
      match w.balance
      case Err(_) => Stop(Reply(info.msgId, BalanceFailedText))
      case Ok(b) => Stop(BalanceCard(info.sessionId, b))
    else Pass()
  }

  /** `RoleListAction`: "/roles" or "角色列表" sends the role tags card. */
  function RoleListSpec(info: MsgInfo, w: World): Effects {
    if w.trimEqual(info.qParsed, "/roles", "角色列表") then Stop(RoleTagsCard(info.sessionId, info.msgId, w.roleTags)) else Pass()
  }

  /** The four fixed-token commands stop the chain exactly when their tokens
      match, send exactly one item then, and never call the completion
      service or write the session. */
  lemma CommandsLeaveSession(info: MsgInfo, w: World)
    ensures forall e :: e in [ClearSpec(info, w), HelpSpec(info, w), BalanceSpec(info, w), RoleListSpec(info, w)] ==>
      e.requests == [] && e.session == None && (e.ok <==> e.sent == [])
    ensures !ClearSpec(info, w).ok <==> w.trimEqual(info.qParsed, "/clear", "清除")
    ensures !HelpSpec(info, w).ok <==> w.trimEqual(info.qParsed, "/help", "帮助")
    ensures !BalanceSpec(info, w).ok <==> w.trimEqual(info.qParsed, "/balance", "余额")
    ensures !RoleListSpec(info, w).ok <==> w.trimEqual(info.qParsed, "/roles", "角色列表")
  {
  }

  /** `RolePlayAction`: "/system " or "角色扮演 " starts the session over with
      the rest of the message as its system prompt. */
  function RolePlaySpec(info: MsgInfo, w: World): (e: Effects)
    ensures e.requests == []
    ensures w.cutPrefix(info.qParsed, "/system ", "角色扮演 ").None? ==> e == Pass()
    ensures w.cutPrefix(info.qParsed, "/system ", "角色扮演 ").Some? ==>
      var system := w.cutPrefix(info.qParsed, "/system ", "角色扮演 ").value;
      && !e.ok
      && e.session == Some([SystemMsg(system)])
      && e.sent == [SystemCard(info.sessionId, info.msgId, system)]
  {
    match w.cutPrefix(info.qParsed, "/system ", "角色扮演 ")
    case None => Pass()
    case Some(system) => Effects([], Some([SystemMsg(system)]), [SystemCard(info.sessionId, info.msgId, system)], false)
  }

  const ReadPreamble: string := "以下是联网获取的参考资料：\n"
  const ReadPrompt: string := "请基于上述资料回答。"

  function ReadFailed(err: string): string {
    "读取失败：" + err
  }

  function BrowseFailed(err: string): string {
    "🤖️：联网回答失败，请稍后再试～\n错误信息: " + err
  }

  function SendFailed(err: string): string {
    "🤖️：发送消息失败，请稍后再试～\n错误信息: " + err
  }

  /** `WebBrowseAction` with `n` completion requests and `m` sent items so far. */
  function WebBrowseSpec(info: MsgInfo, history: seq<Message>, w: World, n: nat, m: nat): Effects {
    match w.cutPrefix(info.qParsed, "/read ", "联网 ")
    case None => Pass()
    case Some(url) =>
      match FetchUrlAsPlainText(url, w.net)
      case Err(e) => Stop(Reply(info.msgId, ReadFailed(e)))
      case Ok(content) =>
        var msgs := history + [SystemMsg(ReadPreamble + content), UserMsg(ReadPrompt)];
        var req := Request(msgs, None);
        match w.gpt(n, req)
        case Err(e) => Effects([req], None, [Reply(info.msgId, BrowseFailed(e))], false)
        case Ok(c) =>
          var sent := if w.deliver(m).Some? then [Reply(info.msgId, c.content), Reply(info.msgId, SendFailed(w.deliver(m).value))]
                      else [Reply(info.msgId, c.content)];
          Effects([req], Some(msgs + [c]), sent, false)
  }

  /** A "/read" message always stops the chain; without the prefix nothing
      happens. A page that cannot be read costs no request and writes
      nothing; otherwise exactly one request is made, over the history, the
      page and the prompt, and the session becomes that request's messages
      plus the answer exactly when the answer arrived. Every run that writes
      nothing but stops sends exactly one reply. */
  lemma WebBrowseEffects(info: MsgInfo, history: seq<Message>, w: World, n: nat, m: nat)
    ensures var e := WebBrowseSpec(info, history, w, n, m);
      && (w.cutPrefix(info.qParsed, "/read ", "联网 ").None? <==> e.ok)
      && (e.ok ==> e == Pass())
      && (e.session.None? && !e.ok ==> |e.sent| == 1)
      && (e.session.Some? ==>
            var s := e.session.value;
            && |s| == |history| + 3 && s[..|history|] == history
            && s[|history| + 1] == UserMsg(ReadPrompt)
            && |e.requests| == 1 && w.gpt(n, e.requests[0]) == Ok(s[|history| + 2]))
    ensures var e := WebBrowseSpec(info, history, w, n, m);
      var cut := w.cutPrefix(info.qParsed, "/read ", "联网 ");
      cut.Some? ==>
        var page := FetchUrlAsPlainText(cut.value, w.net);
        && (page.Err? ==> e.requests == [] && e.session.None? && e.sent == [Reply(info.msgId, ReadFailed(page.msg))])
        && (page.Ok? ==>
              var req := Request(history + [SystemMsg(ReadPreamble + page.value), UserMsg(ReadPrompt)], None);
              && e.requests == [req]
              && (e.session.Some? <==> w.gpt(n, req).Ok?)
              && (e.session.Some? ==> e.session.value == req.msgs + [w.gpt(n, req).value]))
  {
    var e := WebBrowseSpec(info, history, w, n, m);
    if e.session.Some? {
      assert e.session.value[..|history|] == history;
    }
  }

  const SearchPreamble: string := "以下是网络搜索的结果(JSON，包含标题、摘要、URL、内容片段)。请核对来源并据此回答。\n"
  const SearchPrompt: string := "基于上述资料，回答：\n"

  /** The context the automatic search builds: Custom Search when it is
      configured, otherwise DuckDuckGo; no fallback between the two here. */
  function AutoSearchContext(q: string, cfg: Config, net: Net): Result<string> {
    if HasGoogle(cfg) then GoogleContextSpec(q, cfg.googleApiKey, cfg.googleCseId, cfg.searchTopK, net)
    else SearchContextSpec(q, cfg.searchTopK, net)
  }

  /** `AutoSearchAction` with `n` completion requests so far. */
  function AutoSearchSpec(info: MsgInfo, history: seq<Message>, cfg: Config, w: World, n: nat): Effects {
    if info.msgType != "text" then Pass()
    else match AutoSearchContext(info.qParsed, cfg, w.net)
      case Err(_) => Pass()
      case Ok(ctx) =>
        var msgs := history + [SystemMsg(SearchPreamble + ctx), UserMsg(SearchPrompt + info.qParsed)];
        var req := Request(msgs, None);
        match w.gpt(n, req)
        case Err(_) => Effects([req], None, [], true)
        case Ok(c) => Effects([req], Some(msgs + [c]), [Reply(info.msgId, c.content)], false)
  }

  /** Automatic search fails soft: anything but a text message, a failed
      search or a failed completion lets the chain go on with nothing sent
      and the session untouched. Otherwise exactly one request is made, over
      the history, the search context and the question, the session becomes
      that request's messages plus the answer, one reply carries the answer,
      and the chain stops whether or not the reply was delivered. */
  lemma AutoSearchEffects(info: MsgInfo, history: seq<Message>, cfg: Config, w: World, n: nat)
    ensures var e := AutoSearchSpec(info, history, cfg, w, n);
      && (info.msgType != "text" ==> e == Pass())
      && (e.ok <==> e.session.None?)
      && (e.ok ==> e.sent == [])
      && (e.session.Some? ==>
            var s := e.session.value;
            && |s| == |history| + 3 && s[..|history|] == history
            && s[|history| + 1] == UserMsg(SearchPrompt + info.qParsed)
            && e.sent == [Reply(info.msgId, s[|history| + 2].content)])
    ensures var e := AutoSearchSpec(info, history, cfg, w, n);
      var ctx := AutoSearchContext(info.qParsed, cfg, w.net);
      info.msgType == "text" ==>
        && (ctx.Err? ==> e == Pass())
        && (ctx.Ok? ==>
              var req := Request(history + [SystemMsg(SearchPreamble + ctx.value), UserMsg(SearchPrompt + info.qParsed)], None);
              && e.requests == [req]
              && (w.gpt(n, req).Err? ==> e.ok && e.session.None? && e.sent == [])
              && (w.gpt(n, req).Ok? ==> !e.ok && e.session == Some(req.msgs + [w.gpt(n, req).value])))
  {
    var e := AutoSearchSpec(info, history, cfg, w, n);
    if e.session.Some? {
      assert e.session.value[..|history|] == history;
    }
  }
}
