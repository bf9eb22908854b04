/** The message handler: its state (session store, processed-message cache,
    the completion requests made and the items sent), every action of the
    chain, the chain itself, the receive handler that classifies an event and
    runs the chain, and the nil-guarded entry point. */
module Handlers {
  import opened Base
  import opened Text
  import opened Types
  import opened Services
  import opened Initialization
  import opened Web
  import opened Events
  import opened Environment
  import opened MessageFlow
  import opened Actions

  datatype Action =
    | ProcessedUniqueAction
    | ProcessMentionAction
    | AudioAction
    | EmptyAction
    | WebBrowseAction
    | AutoSearchAction
    | ClearAction
    | PicAction
    | RoleListAction
    | HelpAction
    | BalanceAction
    | RolePlayAction
    | MessageAction

  /** The fixed order in which `msgReceivedHandler` runs the actions. */
  const Pipeline: seq<Action> := [
    ProcessedUniqueAction, ProcessMentionAction, AudioAction, EmptyAction, WebBrowseAction,
    AutoSearchAction, ClearAction, PicAction, RoleListAction, HelpAction, BalanceAction,
    RolePlayAction, MessageAction]

  /** Deduplication runs first and the free-form answer last, every action
      runs at most once, and the automatic search comes before the clear,
      help, balance and role-play commands, so a search that answers a
      message keeps those commands from ever seeing it. */
  lemma PipelineOrder()
    ensures |Pipeline| == 13 && Pipeline[0] == ProcessedUniqueAction && Pipeline[12] == MessageAction
    ensures forall i, j :: 0 <= i < j < |Pipeline| ==> Pipeline[i] != Pipeline[j]
    ensures Pipeline[5] == AutoSearchAction
    ensures forall j :: 0 <= j < |Pipeline| && Pipeline[j] in {ClearAction, HelpAction, BalanceAction, RolePlayAction} ==> 5 < j
  {
  }

  /** The session map after an action whose effects are `e`. */
  function Store(sessions: map<string, seq<Message>>, id: string, session: Option<seq<Message>>): map<string, seq<Message>> {
    if session.Some? then sessions[id := session.value] else sessions
  }

  /** What running action `a` does to a message, given the message ids seen
      so far, the stored sessions, the handler's prompts, configuration and
      oracles, after `n` completion requests and `m` sent items: its verdict,
      the requests it makes, the items it sends and the session it writes.
      The gates that only decide have no other effect here. */
  function ActionEffects(a: Action, info: MsgInfo, processed: set<string>, sessions: map<string, seq<Message>>,
                         p: Prompts, cfg: Config, w: World, n: nat, m: nat): Effects
  {
    var history := Lookup(sessions, info.sessionId);
    match a
    case ProcessedUniqueAction => Effects([], None, [], info.msgId !in processed)
    case ProcessMentionAction => Effects([], None, [], MentionPasses(info, cfg.feishuBotName))
    case AudioAction => Effects([], None, [], w.audio(info))
    case EmptyAction => EmptySpec(info)
    case WebBrowseAction => WebBrowseSpec(info, history, w, n, m)
    case AutoSearchAction => AutoSearchSpec(info, history, cfg, w, n)
    case ClearAction => ClearSpec(info, w)
    case PicAction => Effects([], None, [], w.pic(info))
    case RoleListAction => RoleListSpec(info, w)
    case HelpAction => HelpSpec(info, w)
    case BalanceAction => BalanceSpec(info, w)
    case RolePlayAction => RolePlaySpec(info, w)
    case MessageAction => MessageSpec(p, info, history, cfg, w, n, m)
  }

  /** The message ids seen after action `a` ran on `info`: deduplication
      records the id, every other action leaves the set alone. */
  function Marked(a: Action, info: MsgInfo, processed: set<string>): set<string> {
    if a == ProcessedUniqueAction then processed + {info.msgId} else processed
  }

  /** What a run of the chain did: the verdicts of the actions that ran, the
      processed set and the sessions it left, and the requests made and the
      items sent, in order. */
  datatype ChainOutcome = ChainOutcome(verdicts: seq<bool>, processed: set<string>,
                                       sessions: map<string, seq<Message>>,
                                       requests: seq<Request>, sent: seq<Outgoing>)

  /** `c` after the verdicts `v`, the requests `rq` and the items `st` of
      earlier actions. */
  function Glue(v: seq<bool>, rq: seq<Request>, st: seq<Outgoing>, c: ChainOutcome): ChainOutcome {
    ChainOutcome(v + c.verdicts, c.processed, c.sessions, rq + c.requests, st + c.sent)
  }

  lemma GlueGlue(v: seq<bool>, rq: seq<Request>, st: seq<Outgoing>,
                 v': seq<bool>, rq': seq<Request>, st': seq<Outgoing>, c: ChainOutcome)
    ensures Glue(v, rq, st, Glue(v', rq', st', c)) == Glue(v + v', rq + rq', st + st', c)
  {
    AppendAssoc(v, v', c.verdicts);
    AppendAssoc(rq, rq', c.requests);
    AppendAssoc(st, st', c.sent);
  }

  /** What running one action does to a message, given the ids seen, the
      sessions stored and the request and send counts so far. */
  type Step = (Action, set<string>, map<string, seq<Message>>, nat, nat) -> Effects

  /** The handler's actions on message `info`, with its prompts,
      configuration and oracles. */
  function ActionsOn(info: MsgInfo, p: Prompts, cfg: Config, w: World): Step {
    (a: Action, processed: set<string>, sessions: map<string, seq<Message>>, n: nat, m: nat) =>
      ActionEffects(a, info, processed, sessions, p, cfg, w, n, m)
  }

  /** `step` gives, for message `info`, the effects `ActionEffects` states
      under prompts `p`, configuration `cfg` and oracles `w`. */
  ghost predicate Realizes(step: Step, info: MsgInfo, p: Prompts, cfg: Config, w: World) {
    forall a: Action, processed: set<string>, sessions: map<string, seq<Message>>, n: nat, m: nat
      {:trigger ActionEffects(a, info, processed, sessions, p, cfg, w, n, m)} ::
      step(a, processed, sessions, n, m) == ActionEffects(a, info, processed, sessions, p, cfg, w, n, m)
  }

  /** The handler's own actions give the effects the specification states. */
  lemma ActionsOnRealizes(info: MsgInfo, p: Prompts, cfg: Config, w: World)
    ensures Realizes(ActionsOn(info, p, cfg, w), info, p, cfg, w)
  {
  }

  /** What `chain` does from position `i` of `actions` on: runs that action
      on the current state and, when it returns true, the rest on the state
      it left; it stops after the first action that returns false. */
  function ChainRun(actions: seq<Action>, i: nat, step: Step, info: MsgInfo, processed: set<string>,
                    sessions: map<string, seq<Message>>, n: nat, m: nat): ChainOutcome
    requires i <= |actions|
    decreases |actions| - i
  {
    if i == |actions| then ChainOutcome([], processed, sessions, [], [])
    else
      var e := step(actions[i], processed, sessions, n, m);
      var processed' := Marked(actions[i], info, processed);
      var sessions' := Store(sessions, info.sessionId, e.session);
      if !e.ok then ChainOutcome([false], processed', sessions', e.requests, e.sent)
      else Glue([true], e.requests, e.sent,
                ChainRun(actions, i + 1, step, info, processed', sessions', n + |e.requests|, m + |e.sent|))
  }

  /** The chain from position `i` on, after the verdicts `v`, requests `rq`
      and items `st` of the actions before it, with its first step, whose
      effects are `e`, taken. */
  lemma ChainStep(actions: seq<Action>, i: nat, step: Step, info: MsgInfo, processed: set<string>,
                  sessions: map<string, seq<Message>>, n: nat, m: nat,
                  v: seq<bool>, rq: seq<Request>, st: seq<Outgoing>, e: Effects)
    requires i < |actions| && e == step(actions[i], processed, sessions, n, m)
    ensures !e.ok ==>
      Glue(v, rq, st, ChainRun(actions, i, step, info, processed, sessions, n, m)) ==
      ChainOutcome(v + [false], Marked(actions[i], info, processed), Store(sessions, info.sessionId, e.session),
                   rq + e.requests, st + e.sent)
    ensures e.ok ==>
      Glue(v, rq, st, ChainRun(actions, i, step, info, processed, sessions, n, m)) ==
      Glue(v + [true], rq + e.requests, st + e.sent,
           ChainRun(actions, i + 1, step, info, Marked(actions[i], info, processed),
                    Store(sessions, info.sessionId, e.session), n + |e.requests|, m + |e.sent|))
  {
    if e.ok {
      GlueGlue(v, rq, st, [true], e.requests, e.sent,
               ChainRun(actions, i + 1, step, info, Marked(actions[i], info, processed),
                        Store(sessions, info.sessionId, e.session), n + |e.requests|, m + |e.sent|));
    }
  }

  /** A chain from position `i` runs at least one action when one is left,
      every verdict but the last is true, and it ends before the last action
      only on a false verdict. */
  lemma {:induction false} ChainRunStops(actions: seq<Action>, i: nat, step: Step, info: MsgInfo,
                                         processed: set<string>, sessions: map<string, seq<Message>>,
                                         n: nat, m: nat)
    requires i <= |actions|
    decreases |actions| - i
    ensures var v := ChainRun(actions, i, step, info, processed, sessions, n, m).verdicts;
      && |v| <= |actions| - i
      && (i < |actions| ==> |v| >= 1)
      && (forall j :: 0 <= j < |v| - 1 ==> v[j])
      && (|v| < |actions| - i ==> !v[|v| - 1])
  {
    if i < |actions| {
      var e := step(actions[i], processed, sessions, n, m);
      if e.ok {
        ChainRunStops(actions, i + 1, step, info, Marked(actions[i], info, processed),
                      Store(sessions, info.sessionId, e.session), n + |e.requests|, m + |e.sent|);
      }
    }
  }

  /** The actions a chain over a non-empty list runs, paired with their
      verdicts, stop at the first false verdict. */
  lemma ChainRunRecords(actions: seq<Action>, step: Step, info: MsgInfo, processed: set<string>,
                        sessions: map<string, seq<Message>>, n: nat, m: nat)
    requires actions != []
    ensures var v := ChainRun(actions, 0, step, info, processed, sessions, n, m).verdicts;
      |v| <= |actions| && v != [] && StopsAtFirstFalse(Ran(actions, v), actions)
  {
    var v := ChainRun(actions, 0, step, info, processed, sessions, n, m).verdicts;
    ChainRunStops(actions, 0, step, info, processed, sessions, n, m);
    RanPairs(actions, v);
  }

  /** What `msgReceivedHandler` does with an event that carries a message,
      given the handler's state, prompts, configuration and oracles: nothing
      when the chat type is unknown or the message type unsupported,
      otherwise the pipeline run on the message. */
  function Received(event: Option<ReceiveEvent>, processed: set<string>, sessions: map<string, seq<Message>>,
                    p: Prompts, cfg: Config, w: World, n: nat, m: nat): ChainOutcome
    requires MessageOf(event).Some?
  {
    if JudgeChatType(event) == OtherChat || !IsSupportedType(MessageOf(event).value.messageType) then
      ChainOutcome([], processed, sessions, [], [])
    else
      var info := InfoOf(MessageOf(event).value, JudgeChatType(event), w);
      ChainRun(Pipeline, 0, ActionsOn(info, p, cfg, w), info, processed, sessions, n, m)
  }

  /** An ignored event leaves everything as it was; an event that runs the
      pipeline runs a non-empty prefix of it, every action but the last
      returning true, and stops early only after a false verdict. */
  lemma ReceivedStops(event: Option<ReceiveEvent>, processed: set<string>, sessions: map<string, seq<Message>>,
                      p: Prompts, cfg: Config, w: World, n: nat, m: nat)
    requires MessageOf(event).Some?
    ensures var c := Received(event, processed, sessions, p, cfg, w, n, m);
      && |c.verdicts| <= |Pipeline|
      && (c.verdicts == [] <==> JudgeChatType(event) == OtherChat || !IsSupportedType(MessageOf(event).value.messageType))
      && (c.verdicts == [] ==> c == ChainOutcome([], processed, sessions, [], []))
      && (c.verdicts != [] ==> StopsAtFirstFalse(Ran(Pipeline, c.verdicts), Pipeline))
  {
    if JudgeChatType(event) != OtherChat && IsSupportedType(MessageOf(event).value.messageType) {
      var info := InfoOf(MessageOf(event).value, JudgeChatType(event), w);
      ChainRunRecords(Pipeline, ActionsOn(info, p, cfg, w), info, processed, sessions, n, m);
    }
  }

  /** The first `|results|` actions, each paired with its verdict. */
  function Ran(actions: seq<Action>, results: seq<bool>): (ran: seq<(Action, bool)>)
    requires |results| <= |actions|
    ensures |ran| == |results|
  {
    if results == [] then []
    else Ran(actions, results[..|results| - 1]) + [(actions[|results| - 1], results[|results| - 1])]
  }

  /** Entry `i` pairs action `i` with verdict `i`. */
  lemma {:induction false} RanPairs(actions: seq<Action>, results: seq<bool>)
    requires |results| <= |actions|
    ensures forall i :: 0 <= i < |results| ==> Ran(actions, results)[i] == (actions[i], results[i])
  {
    if results != [] {
      RanPairs(actions, results[..|results| - 1]);
    }
  }

  /** `run` is what a chain over `actions` records: a non-empty prefix of
      the actions with their verdicts, every verdict but the last true, and
      the last false unless every action ran. */
  predicate StopsAtFirstFalse(run: seq<(Action, bool)>, actions: seq<Action>) {
    && 1 <= |run| <= |actions|
    && (forall i :: 0 <= i < |run| ==> run[i].0 == actions[i])
    && (forall i :: 0 <= i < |run| - 1 ==> run[i].1)
    && (|run| < |actions| ==> !run[|run| - 1].1)
  }

  /** Verdicts of the shape `ChainRunStops` gives: the chain succeeded iff
      every action ran and the last returned true, that is, iff all returned
      true. */
  lemma VerdictsStop(actions: seq<Action>, v: seq<bool>, ok: bool)
    requires |v| <= |actions| && (actions != [] ==> |v| >= 1)
    requires forall j :: 0 <= j < |v| - 1 ==> v[j]
    requires |v| < |actions| ==> !v[|v| - 1]
    requires ok <==> |v| == |actions| && (v == [] || v[|v| - 1])
    ensures forall i :: 0 <= i < |v| - 1 ==> v[i]
    ensures ok <==> |v| == |actions| && forall i :: 0 <= i < |v| ==> v[i]
    ensures !ok ==> |v| >= 1 && !v[|v| - 1]
  {
  }

  lemma AppendAssoc<T>(a: seq<T>, b: seq<T>, c: seq<T>)
    ensures (a + b) + c == a + (b + c)
  {
  }

  /** The information the actions get about a received message: the chat
      type, the message type, the ids, the parsed text without surrounding
      blanks (`strings.Trim(.., " ")`) and the session it belongs to. */
  function InfoOf(m: EventMessage, h: HandlerType, w: World): (info: MsgInfo)
    ensures info.sessionId == SessionIdOf(m.rootId, m.messageId)
    ensures info.qParsed == Trim(w.parseContent(m.content), IsPlainSpace)
  {
    MsgInfo(h, m.messageType, m.messageId, m.chatId, Trim(w.parseContent(m.content), IsPlainSpace),
            SessionIdOf(m.rootId, m.messageId), m.mentions)
  }

  class MessageHandler {
    const sessionCache: SessionCache
    /** The message ids the processed-message cache has tagged. */
    var processed: set<string>
    const config: Config
    const world: World
    /** The system prompts the message action asks with. */
    const prompts: Prompts
    /** Every completion request made, in order. */
    var requests: seq<Request>
    /** Every reply, message and card sent, in order. */
    var outbox: seq<Outgoing>

    /** `NewMessageHandler`. */
    constructor (config: Config, world: World)
      ensures this.config == config && this.world == world && prompts == SourcePrompts
      ensures fresh(sessionCache) && sessionCache.sessions == map[]
      ensures processed == {} && requests == [] && outbox == []
    {
      this.config := config;
      this.world := world;
      prompts := SourcePrompts;
      sessionCache := new SessionCache();
      processed := {};
      requests := [];
      outbox := [];
    }

    /** One call of the completion service. */
    method Complete(msgs: seq<Message>, maxTokens: Option<GoInt>) returns (r: Result<Message>)
      modifies this
      ensures requests == old(requests) + [Request(msgs, maxTokens)]
      ensures r == world.gpt(|old(requests)|, Request(msgs, maxTokens))
      ensures outbox == old(outbox) && processed == old(processed)
    {
      var req := Request(msgs, maxTokens);
      r := world.gpt(|requests|, req);
      requests := requests + [req];
    }

    /** Sends one item, ignoring whether it was delivered. */
    method Post(o: Outgoing)
      modifies this
      ensures outbox == old(outbox) + [o]
      ensures requests == old(requests) && processed == old(processed)
    {
      outbox := outbox + [o];
    }

    /** Sends one item and reports its delivery error, if any. */
    method PostChecked(o: Outgoing) returns (err: Option<string>)
      modifies this
      ensures outbox == old(outbox) + [o] && err == world.deliver(|old(outbox)|)
      ensures requests == old(requests) && processed == old(processed)
    {
      err := world.deliver(|outbox|);
      outbox := outbox + [o];
    }

    /** `ProcessedUniqueAction`: a message id is handled once; the first
      time it is tagged, any later time the chain stops. */
    method ProcessedUnique(info: MsgInfo) returns (ok: bool)
      modifies this
      ensures ok <==> info.msgId !in old(processed)
      ensures processed == old(processed) + {info.msgId}
      ensures requests == old(requests) && outbox == old(outbox)
    {
      if info.msgId in processed {
        return false;
      }
      processed := processed + {info.msgId};
      return true;
    }

    /** `EmptyAction`. */
    method Empty(info: MsgInfo) returns (ok: bool)
      modifies this
      ensures var e := EmptySpec(info);
        ok == e.ok && requests == old(requests) + e.requests && outbox == old(outbox) + e.sent
      ensures processed == old(processed)
    {
      if |info.qParsed| == 0 {
        Post(Send(info.chatId, EmptyPrompt));
        return false;
      }
      return true;
    }

    /** `ClearAction`. */
    method Clear(info: MsgInfo) returns (ok: bool)
      modifies this
      ensures var e := ClearSpec(info, world);
        ok == e.ok && requests == old(requests) + e.requests && outbox == old(outbox) + e.sent
      ensures processed == old(processed)
    {
      if world.trimEqual(info.qParsed, "/clear", "清除") {
        Post(ClearCacheCard(info.sessionId, info.msgId));
        return false;
      }
      return true;
    }

    /** `HelpAction`. */
    method Help(info: MsgInfo) returns (ok: bool)
      modifies this
      ensures var e := HelpSpec(info, world);
        ok == e.ok && requests == old(requests) + e.requests && outbox == old(outbox) + e.sent
      ensures processed == old(processed)
    {
      if world.trimEqual(info.qParsed, "/help", "帮助") {
        Post(HelpCard(info.sessionId, info.msgId));
        return false;
      }
      return true;
    }

    /** `BalanceAction`. */
    method Balance(info: MsgInfo) returns (ok: bool)
      modifies this
      ensures var e := BalanceSpec(info, world);
        ok == e.ok && requests == old(requests) + e.requests && outbox == old(outbox) + e.sent
      ensures processed == old(processed)
    {
      if world.trimEqual(info.qParsed, "/balance", "余额") {
        var balance := world.balance;
        if balance.Err? {
          Post(Reply(info.msgId, BalanceFailedText));
          return false;
        }
        Post(BalanceCard(info.sessionId, balance.value));
        return false;
      }
      return true;
    }

    /** `RoleListAction`. */
    method RoleList(info: MsgInfo) returns (ok: bool)
      modifies this
      ensures var e := RoleListSpec(info, world);
        ok == e.ok && requests == old(requests) + e.requests && outbox == old(outbox) + e.sent
      ensures processed == old(processed)
    {
      if world.trimEqual(info.qParsed, "/roles", "角色列表") {
        Post(RoleTagsCard(info.sessionId, info.msgId, world.roleTags));
        return false;
      }
      return true;
    }

    /** `RolePlayAction`. */
    method RolePlay(info: MsgInfo) returns (ok: bool)
      modifies this, sessionCache
      ensures var e := RolePlaySpec(info, world);
        && ok == e.ok && requests == old(requests) + e.requests && outbox == old(outbox) + e.sent
        && sessionCache.sessions == Store(old(sessionCache.sessions), info.sessionId, e.session)
      ensures processed == old(processed)
    {
      var cut := world.cutPrefix(info.qParsed, "/system ", "角色扮演 ");
      if cut.Some? {
        var system := cut.value;
        sessionCache.SetMsg(info.sessionId, [SystemMsg(system)]);
        Post(SystemCard(info.sessionId, info.msgId, system));
        return false;
      }
      return true;
    }

    /** `WebBrowseAction`. */
    method WebBrowse(info: MsgInfo) returns (ok: bool)
      modifies this, sessionCache
      ensures var e := WebBrowseSpec(info, Lookup(old(sessionCache.sessions), info.sessionId), world, |old(requests)|, |old(outbox)|);
        && ok == e.ok && requests == old(requests) + e.requests && outbox == old(outbox) + e.sent
        && sessionCache.sessions == Store(old(sessionCache.sessions), info.sessionId, e.session)
      ensures processed == old(processed)
    {
      var cut := world.cutPrefix(info.qParsed, "/read ", "联网 ");
      if cut.None? {
        return true;
      }
      var content := FetchUrlAsPlainText(cut.value, world.net);
      if content.Err? {
        Post(Reply(info.msgId, ReadFailed(content.msg)));
        return false;
      }
      var msgs := sessionCache.GetMsg(info.sessionId);
      msgs := msgs + [SystemMsg(ReadPreamble + content.value), UserMsg(ReadPrompt)];
      var completion := Complete(msgs, None);
      if completion.Err? {
        Post(Reply(info.msgId, BrowseFailed(completion.msg)));
        return false;
      }
      sessionCache.SetMsg(info.sessionId, msgs + [completion.value]);
      var err := PostChecked(Reply(info.msgId, completion.value.content));
      if err.Some? {
        Post(Reply(info.msgId, SendFailed(err.value)));
      }
      return false;
    }

    /** `AutoSearchAction`. */
    method AutoSearch(info: MsgInfo) returns (ok: bool)
      modifies this, sessionCache
      ensures var e := AutoSearchSpec(info, Lookup(old(sessionCache.sessions), info.sessionId), config, world, |old(requests)|);
        && ok == e.ok && requests == old(requests) + e.requests && outbox == old(outbox) + e.sent
        && sessionCache.sessions == Store(old(sessionCache.sessions), info.sessionId, e.session)
      ensures processed == old(processed)
    {
      if info.msgType != "text" {
        return true;
      }
      var ctx: Result<string>;
      if config.googleApiKey != "" && config.googleCseId != "" {
        ctx := BuildGoogleSearchContext(info.qParsed, config.googleApiKey, config.googleCseId, config.searchTopK, world.net);
      } else {
        ctx := BuildSearchContext(info.qParsed, config.searchTopK, world.net);
      }
      assert ctx == AutoSearchContext(info.qParsed, config, world.net);
      if ctx.Err? {
        return true;
      }
      var msgs := sessionCache.GetMsg(info.sessionId);
      msgs := msgs + [SystemMsg(SearchPreamble + ctx.value), UserMsg(SearchPrompt + info.qParsed)];
      var completion := Complete(msgs, None);
      if completion.Err? {
        return true;
      }
      sessionCache.SetMsg(info.sessionId, msgs + [completion.value]);
      Post(Reply(info.msgId, completion.value.content));
      return false;
    }

    /** The empty-reply retry ladder of `MessageAction`. */
    method Ladder(msgs: seq<Message>, mt: GoInt, simple: seq<Message>) returns (reply: Result<Message>)
      requires 100 <= mt <= 4000
      modifies this
      ensures var run := RetryLadder(world.gpt, |old(requests)|, msgs, mt, simple);
        requests == old(requests) + run.requests && reply == run.reply
      ensures outbox == old(outbox) && processed == old(processed)
    {
      var r := Complete(msgs, Some(mt));
      if r.Err? {
        return Err(BotDown(r.msg));
      }
      if TrimSpace(r.value.content) != "" {
        return r;
      }
      var budget := mt * 2;
      if budget > 4000 {
        budget := 4000;
      }
      r := Complete(msgs, Some(budget));
      if r.Err? {
        return Err(RetryFailedText);
      }
      if TrimSpace(r.value.content) != "" {
        return r;
      }
      r := Complete(simple, Some(2000));
      if r.Err? {
        return Err(SimpleFailedText);
      }
      if TrimSpace(r.value.content) == "" {
        return Err(AllBlankText);
      }
      return r;
    }

    /** The write-back and reply that end every successful path of `MessageAction`. */
    method WriteBack(info: MsgInfo, final: seq<Message>, text: string) returns (ok: bool)
      modifies this, sessionCache
      ensures var e := Conclude(info, final, text, world.deliver, |old(outbox)|, []);
        && ok == e.ok && outbox == old(outbox) + e.sent
        && sessionCache.sessions == old(sessionCache.sessions)[info.sessionId := final]
      ensures requests == old(requests) && processed == old(processed)
    {
      sessionCache.SetMsg(info.sessionId, final);
      if |final| == 2 {
        Post(NewTopicCard(info.sessionId, info.msgId, text));
        return false;
      }
      var err := PostChecked(Reply(info.msgId, text));
      if err.Some? {
        Post(Reply(info.msgId, BotDown(err.value)));
        return false;
      }
      return true;
    }

    /** The fan-out, the collector and the context array of the search path. */
    method GatherContext(queries: seq<string>, topK: GoInt) returns (contextJson: string)
      ensures contextJson == ContextJson(ContextParts(KeptParts(
        world.schedule(LaunchResults(queries, Min(10, |queries|), topK, config, world), OverallTimeout(config)), world)), world)
      ensures |KeptParts(world.schedule(LaunchResults(queries, Min(10, |queries|), topK, config, world), OverallTimeout(config)), world)|
        <= Min(10, |queries|)
    {
      KeptPerLaunched(queries, topK, config, world);
      var results := FanOut(queries, topK, config, world);
      var arrivals := world.schedule(results, OverallTimeout(config));
      var parts, successful, failed := Collect(arrivals, world);
      if |parts| == 0 {
        parts := [Placeholder];
      }
      contextJson := "[" + Join(parts, ',') + "]";
      if !world.isJson(contextJson) {
        contextJson := SafeContextJson;
      }
    }

    /** The search path of `MessageAction`. */
    method SearchAndAnswer(info: MsgInfo, history: seq<Message>, d: Decision) returns (ok: bool)
      modifies this, sessionCache
      ensures var e := WebPath(prompts, info, history, d, config, world, |old(requests)|, |old(outbox)|);
        && ok == e.ok && requests == old(requests) + e.requests && outbox == old(outbox) + e.sent
        && sessionCache.sessions == Store(old(sessionCache.sessions), info.sessionId, e.session)
      ensures processed == old(processed)
    {
      var q := info.qParsed;
      var queries := d.queries;
      if |queries| == 0 {
        queries := [q];
      }
      assert queries == SearchQueries(d, q);
      var contextJson := GatherContext(queries, ClampCount(d.searchTopK));
      assert contextJson == WebContext(q, d, config, world);
      var second := history + [SystemMsg(prompts.web), UserMsg(WebUserText(q, contextJson))];
      assert second == WebMessages(prompts, history, q, contextJson);
      var reply := Ladder(second, ClampMaxTokens(d.maxTokens), [SystemMsg(SimpleWebSystem), UserMsg(q)]);
      if reply.Err? {
        Post(Reply(info.msgId, reply.msg));
        return false;
      }
      ok := WriteBack(info, history + [UserMsg(q), AssistantMsg(reply.value.content)], reply.value.content);
    }

    /** The path taken when the classifier reply is not a decision. */
    method JsonFallback(info: MsgInfo, history: seq<Message>) returns (ok: bool)
      modifies this, sessionCache
      ensures var e := JsonFallbackPath(info, history, world, |old(requests)|, |old(outbox)|);
        && ok == e.ok && requests == old(requests) + e.requests && outbox == old(outbox) + e.sent
        && sessionCache.sessions == Store(old(sessionCache.sessions), info.sessionId, e.session)
      ensures processed == old(processed)
    {
      var msg := history + [UserMsg(info.qParsed)];
      var completion := Complete(msg, None);
      if completion.Err? {
        Post(Reply(info.msgId, BotDown(completion.msg)));
        return false;
      }
      ok := WriteBack(info, msg + [completion.value], completion.value.content);
    }

    /** The path taken when the classifier neither searched nor answered. */
    method AnswerFallback(info: MsgInfo, history: seq<Message>, d: Decision) returns (ok: bool)
      modifies this, sessionCache
      ensures var e := AnswerFallbackPath(info, history, d, world, |old(requests)|, |old(outbox)|);
        && ok == e.ok && requests == old(requests) + e.requests && outbox == old(outbox) + e.sent
        && sessionCache.sessions == Store(old(sessionCache.sessions), info.sessionId, e.session)
      ensures processed == old(processed)
    {
      var q := info.qParsed;
      var msg := history + [UserMsg(q)];
      var reply := Ladder(msg, ClampMaxTokens(d.maxTokens), [SystemMsg(SimpleSystem), UserMsg(q)]);
      if reply.Err? {
        Post(Reply(info.msgId, reply.msg));
        return false;
      }
      ok := WriteBack(info, msg + [reply.value], reply.value.content);
    }

    /** `MessageAction.Execute`. */
    method Message(info: MsgInfo) returns (ok: bool)
      modifies this, sessionCache
      ensures var e := MessageSpec(prompts, info, Lookup(old(sessionCache.sessions), info.sessionId), config, world, |old(requests)|, |old(outbox)|);
        && ok == e.ok && requests == old(requests) + e.requests && outbox == old(outbox) + e.sent
        && sessionCache.sessions == Store(old(sessionCache.sessions), info.sessionId, e.session)
      ensures processed == old(processed)
    {
      var history := sessionCache.GetMsg(info.sessionId);
      ghost var n, m := |requests|, |outbox|;
      ghost var spec := MessageSpec(prompts, info, history, config, world, n, m);
      var creq := Request(ClassifyMessages(prompts, history, info.qParsed), None);
      var cls := Complete(creq.msgs, None);
      if cls.Err? {
        Post(Reply(info.msgId, BotDown(cls.msg)));
        return false;
      }
      ghost var before := requests;
      ghost var e: Effects;
      var decision := world.parseDecision(cls.value.content);
      if decision.None? {
        e := JsonFallbackPath(info, history, world, n + 1, m);
        ok := JsonFallback(info, history);
      } else if decision.value.needWeb {
        e := WebPath(prompts, info, history, decision.value, config, world, n + 1, m);
        ok := SearchAndAnswer(info, history, decision.value);
      } else if decision.value.answer == "" {
        e := AnswerFallbackPath(info, history, decision.value, world, n + 1, m);
        ok := AnswerFallback(info, history, decision.value);
      } else {
        var d := decision.value;
        e := DirectPath(info, history, d, world, m);
        ok := WriteBack(info, history + [UserMsg(info.qParsed), AssistantMsg(d.answer)], d.answer);
      }
      assert spec == e.(requests := [creq] + e.requests);
      AppendAssoc(old(requests), [creq], e.requests);
    }

    /** Runs one action of the chain. */
    method Run(a: Action, info: MsgInfo, ghost step: Step) returns (ok: bool)
      requires Realizes(step, info, prompts, config, world)
      modifies this, sessionCache
      ensures var e := step(a, old(processed), old(sessionCache.sessions), |old(requests)|, |old(outbox)|);
        && ok == e.ok && requests == old(requests) + e.requests && outbox == old(outbox) + e.sent
        && sessionCache.sessions == Store(old(sessionCache.sessions), info.sessionId, e.session)
      ensures processed == Marked(a, info, old(processed))
    {
      ghost var e := ActionEffects(a, info, processed, sessionCache.sessions, prompts, config, world,
                                   |requests|, |outbox|);
      match a {
        case ProcessedUniqueAction => ok := ProcessedUnique(info);
        case ProcessMentionAction => ok := MentionPasses(info, config.feishuBotName);
        case AudioAction => ok := world.audio(info);
        case EmptyAction => ok := Empty(info);
        case WebBrowseAction => ok := WebBrowse(info);
        case AutoSearchAction => ok := AutoSearch(info);
        case ClearAction => ok := Clear(info);
        case PicAction => ok := world.pic(info);
        case RoleListAction => ok := RoleList(info);
        case HelpAction => ok := Help(info);
        case BalanceAction => ok := Balance(info);
        case RolePlayAction => ok := RolePlay(info);
        case MessageAction => ok := Message(info);
      }
    }

    /** One turn of `chain`'s loop: runs the action at position `i`, after
      the actions before it returned the verdicts `v`, made the requests `rq`
      and sent the items `st` on top of `rq0` and `st0`; `whole`, the
      outcome of the whole run, is that prefix followed by what is left. */
    method RunAt(info: MsgInfo, actions: seq<Action>, i: nat, ghost step: Step, ghost whole: ChainOutcome,
                 ghost v: seq<bool>, ghost rq: seq<Request>, ghost st: seq<Outgoing>,
                 ghost rq0: seq<Request>, ghost st0: seq<Outgoing>)
      returns (ok: bool, ghost rq': seq<Request>, ghost st': seq<Outgoing>)
      requires Realizes(step, info, prompts, config, world)
      requires i < |actions| && |v| == i
      requires requests == rq0 + rq && outbox == st0 + st
      requires whole == Glue(v, rq, st, ChainRun(actions, i, step, info, processed, sessionCache.sessions,
                                                 |requests|, |outbox|))
      modifies this, sessionCache
      ensures requests == rq0 + rq' && outbox == st0 + st'
      ensures ok ==> whole == Glue(v + [ok], rq', st', ChainRun(actions, i + 1, step, info, processed,
                                                             sessionCache.sessions, |requests|, |outbox|))
      ensures !ok ==> whole == ChainOutcome(v + [ok], processed, sessionCache.sessions, rq', st')
    {
      ghost var e := step(actions[i], processed, sessionCache.sessions, |requests|, |outbox|);
      ChainStep(actions, i, step, info, processed, sessionCache.sessions, |requests|, |outbox|, v, rq, st, e);
      ok := Run(actions[i], info, step);
      rq', st' := rq + e.requests, st + e.sent;
      AppendAssoc(rq0, rq, e.requests);
      AppendAssoc(st0, st, e.sent);
    }

    /** The loop of `chain`: runs the actions in order until one returns
      false, with the effects `ChainRun` describes for `step`. */
    method RunUntilFalse(info: MsgInfo, actions: seq<Action>, ghost step: Step) returns (ok: bool, results: seq<bool>)
      requires Realizes(step, info, prompts, config, world)
      modifies this, sessionCache
      ensures var c := ChainRun(actions, 0, step, info, old(processed), old(sessionCache.sessions),
                                |old(requests)|, |old(outbox)|);
        && results == c.verdicts && processed == c.processed && sessionCache.sessions == c.sessions
        && requests == old(requests) + c.requests && outbox == old(outbox) + c.sent
      ensures ok <==> |results| == |actions| && (results == [] || results[|results| - 1])
    {
      ghost var whole := ChainRun(actions, 0, step, info, processed, sessionCache.sessions, |requests|, |outbox|);
      ghost var rq0, st0 := requests, outbox;
      ghost var made: seq<Request> := [];
      ghost var sent: seq<Outgoing> := [];
      results := [];
      for i := 0 to |actions|
        invariant |results| == i && (i > 0 ==> results[i - 1])
        invariant requests == rq0 + made && outbox == st0 + sent
        invariant whole == Glue(results, made, sent, ChainRun(actions, i, step, info, processed,
                                                              sessionCache.sessions, |requests|, |outbox|))
      {
        var r;
        r, made, sent := RunAt(info, actions, i, step, whole, results, made, sent, rq0, st0);
        results := results + [r];
        if !r {
          return false, results;
        }
      }
      return true, results;
    }

    /** `chain`: runs the actions in order and stops at the first that
      returns false; `results` holds the verdict of every action that ran. */
    method Chain(info: MsgInfo, actions: seq<Action>) returns (ok: bool, results: seq<bool>)
      modifies this, sessionCache
      ensures var c := ChainRun(actions, 0, ActionsOn(info, prompts, config, world), info, old(processed),
                                old(sessionCache.sessions), |old(requests)|, |old(outbox)|);
        && results == c.verdicts && processed == c.processed && sessionCache.sessions == c.sessions
        && requests == old(requests) + c.requests && outbox == old(outbox) + c.sent
      ensures |results| <= |actions|
      ensures forall i :: 0 <= i < |results| - 1 ==> results[i]
      ensures ok <==> |results| == |actions| && forall i :: 0 <= i < |results| ==> results[i]
      ensures !ok ==> |results| >= 1 && !results[|results| - 1]
    {
      ActionsOnRealizes(info, prompts, config, world);
      ok, results := RunUntilFalse(info, actions, ActionsOn(info, prompts, config, world));
      ChainRunStops(actions, 0, ActionsOn(info, prompts, config, world), info, old(processed),
                    old(sessionCache.sessions), |old(requests)|, |old(outbox)|);
      VerdictsStop(actions, results, ok);
    }

    /** `msgReceivedHandler`: events from other chat types or of other message
      types are ignored; every other event runs the action pipeline. */
    method MsgReceived(event: Option<ReceiveEvent>) returns (ran: bool)
      requires MessageOf(event).Some?
      modifies this, sessionCache
      ensures ran <==> JudgeChatType(event) != OtherChat && IsSupportedType(MessageOf(event).value.messageType)
      ensures !ran ==>
        && requests == old(requests) && outbox == old(outbox) && processed == old(processed)
        && sessionCache.sessions == old(sessionCache.sessions)
      ensures var c := Received(event, old(processed), old(sessionCache.sessions), prompts, config, world,
                                |old(requests)|, |old(outbox)|);
        && processed == c.processed && sessionCache.sessions == c.sessions
        && requests == old(requests) + c.requests && outbox == old(outbox) + c.sent
    {
      var m := MessageOf(event).value;
      var handlerType := JudgeChatType(event);
      if handlerType == OtherChat {
        return false;
      }
      var msgType := JudgeMsgType(m.messageType);
      if msgType.Err? {
        return false;
      }
      var info := InfoOf(m, handlerType, world);
      var ok, results := Chain(info, Pipeline);
      return true;
    }

    /** `Handler`: a nil event, Event or Message is refused before anything
      else happens; any other event goes to `msgReceivedHandler`. */
    method Handle(event: Option<ReceiveEvent>) returns (err: Option<string>)
      modifies this, sessionCache
      ensures MessageOf(event).None? ==>
        && err == Some("invalid event structure")
        && requests == old(requests) && outbox == old(outbox) && processed == old(processed)
        && sessionCache.sessions == old(sessionCache.sessions)
      ensures MessageOf(event).Some? ==>
        && err == None
        && var c := Received(event, old(processed), old(sessionCache.sessions), prompts, config, world,
                             |old(requests)|, |old(outbox)|);
        && processed == c.processed && sessionCache.sessions == c.sessions
        && requests == old(requests) + c.requests && outbox == old(outbox) + c.sent
    {
      if MessageOf(event).None? {
        return Some("invalid event structure");
      }
      var _ := MsgReceived(event);
      return None;
    }
  }

  /** The same message id presented twice is handled only once. */
  method DuplicateRejected(h: MessageHandler, info: MsgInfo) returns (first: bool, second: bool)
    modifies h
    ensures first <==> info.msgId !in old(h.processed)
    ensures !second
  {
    first := h.ProcessedUnique(info);
    second := h.ProcessedUnique(info);
  }
}
