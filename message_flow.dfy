/** The decision flow of `MessageAction`: the classifier prompt, the integer
    clamps, query selection and the search fan-out, the collector that folds
    search outcomes into context parts, the empty-reply retry ladder and the
    session write-back. Everything here is a function of the session history,
    the message and the oracles; the handler in module Handlers runs it step
    by step and is proved to match it. */
module MessageFlow {
  import opened Base
  import opened Text
  import opened Types
  import opened Web
  import opened Initialization
  import opened Events
  import opened Environment

  /** `min`. */
  function Min(a: int, b: int): (m: int)
    ensures m <= a && m <= b
    ensures m == a || m == b
  {
    if a < b then a else b
  }

  /** The clamp applied to the suggested `search_top_k` and to the configured
      search concurrency: unset or non-positive means 3, at most 10. */
  function ClampCount(n: GoInt): (c: GoInt)
    ensures 1 <= c <= 10
    ensures n <= 0 ==> c == 3
    ensures 1 <= n <= 10 ==> c == n
    ensures n > 10 ==> c == 10
  {
    var c := if n <= 0 then 3 else n;
    if c > 10 then 10 else c
  }

  /** The clamp applied to the suggested `max_tokens`: unset means 1500, a
      value below 100 means 500, at most 4000. */
  function ClampMaxTokens(n: GoInt): (m: GoInt)
    ensures 100 <= m <= 4000
    ensures n <= 0 ==> m == 1500
    ensures 1 <= n < 100 ==> m == 500
    ensures 100 <= n <= 4000 ==> m == n
    ensures n > 4000 ==> m == 4000
  {
    var m := if n <= 0 then 1500 else n;
    var m' := if m < 100 then 500 else m;
    if m' > 4000 then 4000 else m'
  }

  /** The budget of the second attempt: twice the first, at most 4000. */
  function RetryBudget(mt: GoInt): (b: GoInt)
    requires 100 <= mt <= 4000
    ensures mt <= b <= 4000
    ensures 2 * mt <= 4000 ==> b == 2 * mt
    ensures 2 * mt > 4000 ==> b == 4000
  {
    if mt * 2 > 4000 then 4000 else mt * 2
  }

  const BotDownPrefix: string := "🤖️：消息机器人摆烂了，请稍后再试～\n错误信息: "

  /** The reply sent when a completion call fails or a reply cannot be delivered. */
  function BotDown(err: string): string {
    BotDownPrefix + err
  }

  const RetryFailedText: string := "🤖️：抱歉，我无法生成有效的回答，请稍后再试。"
  const SimpleFailedText: string := "🤖️：抱歉，我暂时无法回答您的问题。请稍后再试或尝试重新表述您的问题。"
  const AllBlankText: string := "🤖️：抱歉，我暂时无法回答您的问题。这可能是因为问题过于复杂或需要更多上下文信息。请尝试重新表述您的问题。"

  /** The two long system prompts of the message action: the classifier's
      and the one for answering with search results. They are carried as a
      value so that the flow below holds for any prompt texts; the handler is
      built with `SourcePrompts`. */
  datatype Prompts = Prompts(classify: string, web: string)

  /** The prompt texts the bot uses. */
  const SourcePrompts: Prompts :=
    Prompts(
      "你是一个助手。请严格输出 JSON，不要包含多余文本。根据用户问题判断是否需要联网检索外部信息才能给出可靠答案。若需要，请给出3-6条精炼的中文检索关键信息（queries），并建议每个查询的搜索数量（search_top_k，建议1-5个结果）和回答的最大token数（max_tokens，建议500-2000）。若不需要，请直接给出最终答案。必须输出如下 JSON：{\"need_web\": boolean, \"queries\": string[], \"answer\": string, \"search_top_k\": number, \"max_tokens\": number}. 当 need_web=true 时，尽量填写 queries、search_top_k 和 max_tokens，answer 可留空；当 need_web=false 时，必须填写 answer 和 max_tokens，queries 和 search_top_k 可留空。",
      "你是一个联网助手。根据给定的检索资料（JSON 数组，含 query 与 sources 列表，每个 source 有 title、url、content），请严谨回答用户问题：\n- 优先使用检索到的资料信息\n- 如果检索资料不足或为空，请基于你的知识库尽力回答\n- 如果某些搜索失败，请基于成功的搜索结果和你的知识给出最佳答案\n- 不确定时明确说明不确定；\n- 在内容末尾列出引用的网址列表（如果有的话）。")
  const SimpleWebSystem: string := "你是一个友好的助手。请简洁地回答用户的问题。"
  const SimpleSystem: string := "你是一个友好的助手。"

  /** The context part used when no search produced anything usable. */
  const Placeholder: string := "{\"query\": \"用户问题\", \"sources\": \"基于现有知识回答\"}"
  const SafeContextJson: string := "[{\"query\": \"用户问题\", \"sources\": \"基于现有知识回答\"}]"
  const FailedSources: string := "\"搜索失败，无法获取内容\""

  /** The classifier prompt: its system prompt, the history, then the question. */
  function ClassifyMessages(p: Prompts, history: seq<Message>, q: string): (msgs: seq<Message>)
    ensures |msgs| == |history| + 2
    ensures msgs[0] == SystemMsg(p.classify) && msgs[1..|msgs| - 1] == history && msgs[|msgs| - 1] == UserMsg(q)
  {
    [SystemMsg(p.classify)] + history + [UserMsg(q)]
  }

  /** The queries to search: the classifier's, or the question itself when it gave none. */
  function SearchQueries(d: Decision, q: string): (qs: seq<string>)
    ensures |qs| >= 1
    ensures |d.queries| > 0 ==> qs == d.queries
    ensures |d.queries| == 0 ==> qs == [q]
  {
    if |d.queries| == 0 then [q] else d.queries
  }

  /** The searches launched for the first `n` queries: one per query that is
      not blank, with its trimmed text, in query order. */
  function LaunchedTasks(queries: seq<string>, n: nat): (tasks: seq<SearchTask>)
    requires n <= |queries|
    ensures |tasks| <= n
    ensures forall j :: 0 <= j < |tasks| ==>
      tasks[j].index < n && tasks[j].query == TrimSpace(queries[tasks[j].index]) && tasks[j].query != ""
    ensures forall j, k :: 0 <= j < k < |tasks| ==> tasks[j].index < tasks[k].index
  {
    if n == 0 then []
    else
      var init := LaunchedTasks(queries, n - 1);
      var q := TrimSpace(queries[n - 1]);
      if q == "" then init else init + [SearchTask(n - 1, q)]
  }

  /** The number of queries that are not blank. */
  function CountNonBlank(queries: seq<string>): nat {
    if queries == [] then 0
    else (if IsBlank(queries[0]) then 0 else 1) + CountNonBlank(queries[1..])
  }

  lemma {:induction false} CountNonBlankAppend(a: seq<string>, b: seq<string>)
    ensures CountNonBlank(a + b) == CountNonBlank(a) + CountNonBlank(b)
  {
    if a == [] {
      assert a + b == b;
    } else {
      CountNonBlankAppend(a[1..], b);
      assert (a + b)[1..] == a[1..] + b;
    }
  }

  /** Exactly one search is launched per non-blank query among the first `n`,
      and none of any query past them. */
  lemma {:induction false} LaunchedCount(queries: seq<string>, n: nat)
    requires n <= |queries|
    ensures |LaunchedTasks(queries, n)| == CountNonBlank(queries[..n])
  {
    if n > 0 {
      LaunchedCount(queries, n - 1);
      assert queries[..n] == queries[..n - 1] + [queries[n - 1]];
      CountNonBlankAppend(queries[..n - 1], [queries[n - 1]]);
    }
  }

  /** A timeout in nanoseconds: `time.Duration(secs) * time.Second`, wrapped in
      Go's `int64`; a non-positive product means the default. */
  function Timeout(secs: GoInt, defaultSecs: nat): (ns: GoInt)
    requires 0 < defaultSecs <= 10
    ensures ns > 0
    ensures MinInt64 <= secs * 1_000_000_000 <= 0 ==> ns == defaultSecs * 1_000_000_000
    ensures 0 < secs && secs * 1_000_000_000 <= MaxInt64 ==> ns == secs * 1_000_000_000
  {
    var ns := Wrap64(secs * 1_000_000_000);
    if ns <= 0 then defaultSecs * 1_000_000_000 else ns
  }

  /** The per-search timeout: 6 seconds unless configured. */
  function PerTaskTimeout(cfg: Config): GoInt {
    Timeout(cfg.searchPerFetchTimeoutSec, 6)
  }

  /** The overall search timeout: 10 seconds unless configured. */
  function OverallTimeout(cfg: Config): GoInt {
    Timeout(cfg.searchOverallTimeoutSec, 10)
  }

  predicate HasGoogle(cfg: Config) {
    cfg.googleApiKey != "" && cfg.googleCseId != ""
  }

  /** The context one search builds: Custom Search when it is configured,
      falling back to DuckDuckGo when that fails. */
  function SearchContext(query: string, topK: GoInt, cfg: Config, net: Net): (r: Result<string>)
    ensures !HasGoogle(cfg) ==> r == SearchContextSpec(query, topK, net)
    ensures HasGoogle(cfg) && GoogleContextSpec(query, cfg.googleApiKey, cfg.googleCseId, topK, net).Ok? ==>
      r == GoogleContextSpec(query, cfg.googleApiKey, cfg.googleCseId, topK, net)
    ensures HasGoogle(cfg) && GoogleContextSpec(query, cfg.googleApiKey, cfg.googleCseId, topK, net).Err? ==>
      r == SearchContextSpec(query, topK, net)
  {
    if HasGoogle(cfg) then
      var g := GoogleContextSpec(query, cfg.googleApiKey, cfg.googleCseId, topK, net);
      if g.Ok? then g else SearchContextSpec(query, topK, net)
    else SearchContextSpec(query, topK, net)
  }

  /** What one launched search reports: a timeout error when it outlives its
      timeout, else the context it built. */
  function RunTask(t: SearchTask, topK: GoInt, cfg: Config, w: World): TaskResult {
    if w.timedOut(t.query, PerTaskTimeout(cfg)) then TaskResult(t.index, t.query, Err("search timeout"))
    else TaskResult(t.index, t.query, SearchContext(t.query, topK, cfg, w.net))
  }

  /** What the searches launched for the first `n` queries report, in launch order. */
  function LaunchResults(queries: seq<string>, n: nat, topK: GoInt, cfg: Config, w: World): (rs: seq<TaskResult>)
    requires n <= |queries|
    ensures |rs| == |LaunchedTasks(queries, n)|
  {
    Map(LaunchedTasks(queries, n), t => RunTask(t, topK, cfg, w))
  }

  /** The launch loop: walks the first `min(10, |queries|)` queries, skips
      blank ones and starts a search for each other one, trimmed; the
      searches' results are listed in launch order. */
  method FanOut(queries: seq<string>, topK: GoInt, cfg: Config, w: World) returns (results: seq<TaskResult>)
    ensures results == LaunchResults(queries, Min(10, |queries|), topK, cfg, w)
  {
    var maxQ := 10;
    if |queries| < maxQ {
      maxQ := |queries|;
    }
    results := [];
    for i := 0 to maxQ
      invariant results == LaunchResults(queries, i, topK, cfg, w)
    {
      LaunchResultsStep(queries, i, topK, cfg, w);
      var q := TrimSpace(queries[i]);
      if q == "" {
        continue;
      }
      results := results + [RunTask(SearchTask(i, q), topK, cfg, w)];
    }
  }

  /** One more query adds the outcome of its search, unless it is blank. */
  lemma LaunchResultsStep(queries: seq<string>, i: nat, topK: GoInt, cfg: Config, w: World)
    requires i < |queries|
    ensures var q := TrimSpace(queries[i]);
      LaunchResults(queries, i + 1, topK, cfg, w) ==
        LaunchResults(queries, i, topK, cfg, w) + (if q == "" then [] else [RunTask(SearchTask(i, q), topK, cfg, w)])
  {
    var f := t => RunTask(t, topK, cfg, w);
    var q := TrimSpace(queries[i]);
    var init := LaunchedTasks(queries, i);
    if q != "" {
      assert LaunchedTasks(queries, i + 1) == init + [SearchTask(i, q)];
      assert Map(init + [SearchTask(i, q)], f) == Map(init, f) + [f(SearchTask(i, q))];
    }
  }

  /** A search outcome the collector keeps: no error and a non-blank context. */
  predicate Usable(r: TaskResult) {
    r.outcome.Ok? && !IsBlank(r.outcome.value)
  }

  /** The context part for a kept outcome; a context that is not JSON is
      replaced by a failure note so the assembled array stays well formed. */
  function ContextPart(query: string, ctx: string, w: World): string {
    var sources := if w.isJson(ctx) then ctx else FailedSources;
    "{\"query\": " + w.quote(query) + ", \"sources\": " + sources + "}"
  }

  /** The collector's fold: one part per usable outcome, in arrival order. */
  function KeptParts(arrivals: seq<TaskResult>, w: World): (parts: seq<string>)
    ensures |parts| <= |arrivals|
  {
    if arrivals == [] then []
    else
      var init := KeptParts(arrivals[..|arrivals| - 1], w);
      var r := arrivals[|arrivals| - 1];
      if Usable(r) then init + [ContextPart(r.query, r.outcome.value, w)] else init
  }

  /** The number of usable outcomes. */
  function UsableCount(arrivals: seq<TaskResult>): nat {
    if arrivals == [] then 0
    else (if Usable(arrivals[0]) then 1 else 0) + UsableCount(arrivals[1..])
  }

  lemma {:induction false} UsableCountAppend(a: seq<TaskResult>, b: seq<TaskResult>)
    ensures UsableCount(a + b) == UsableCount(a) + UsableCount(b)
  {
    if a == [] {
      assert a + b == b;
    } else {
      UsableCountAppend(a[1..], b);
      assert (a + b)[1..] == a[1..] + b;
    }
  }

  /** The collector keeps exactly the usable outcomes: as many parts as there
      are usable outcomes, so none at all exactly when every search failed. */
  lemma {:induction false} KeptPartsCount(arrivals: seq<TaskResult>, w: World)
    ensures |KeptParts(arrivals, w)| == UsableCount(arrivals)
  {
    if arrivals != [] {
      var init := arrivals[..|arrivals| - 1];
      KeptPartsCount(init, w);
      assert arrivals == init + [arrivals[|arrivals| - 1]];
      UsableCountAppend(init, [arrivals[|arrivals| - 1]]);
    }
  }

  /** Parts follow arrival order: the parts of a longer arrival stream extend
      those of its prefix. */
  lemma {:induction false} KeptPartsAppend(a: seq<TaskResult>, b: seq<TaskResult>, w: World)
    ensures KeptParts(a + b, w) == KeptParts(a, w) + KeptParts(b, w)
  {
    if b != [] {
      KeptPartsAppend(a, b[..|b| - 1], w);
      assert (a + b)[..|a + b| - 1] == a + b[..|b| - 1];
    } else {
      assert a + b == a;
    }
  }

  /** The collector loop: drops failed and blank outcomes, counting them,
      and appends a part for every other one, counting it. */
  method Collect(arrivals: seq<TaskResult>, w: World) returns (parts: seq<string>, successful: nat, failed: nat)
    ensures parts == KeptParts(arrivals, w)
    ensures successful == |parts| == UsableCount(arrivals)
    ensures successful + failed == |arrivals|
  {
    parts := [];
    successful, failed := 0, 0;
    for i := 0 to |arrivals|
      invariant parts == KeptParts(arrivals[..i], w)
      invariant successful == |parts| && successful + failed == i
    {
      assert arrivals[..i + 1][..i] == arrivals[..i];
      var r := arrivals[i];
      if r.outcome.Err? {
        failed := failed + 1;
        continue;
      }
      if TrimSpace(r.outcome.value) == "" {
        failed := failed + 1;
        continue;
      }
      var sources := if w.isJson(r.outcome.value) then r.outcome.value else FailedSources;
      parts := parts + ["{\"query\": " + w.quote(r.query) + ", \"sources\": " + sources + "}"];
      successful := successful + 1;
    }
    assert arrivals[..|arrivals|] == arrivals;
    KeptPartsCount(arrivals, w);
  }

  /** The parts handed to the second stage: never empty. */
  function ContextParts(kept: seq<string>): (parts: seq<string>)
    ensures |parts| >= 1
    ensures kept != [] ==> parts == kept
    ensures kept == [] ==> parts == [Placeholder]
  {
    if kept == [] then [Placeholder] else kept
  }

  /** Whatever arrives, at most one part per launched search is kept, and the
      second stage always gets at least one part. */
  lemma ContextPartsBound(results: seq<TaskResult>, arrivals: seq<TaskResult>, w: World)
    requires multiset(arrivals) <= multiset(results)
    ensures 1 <= |ContextParts(KeptParts(arrivals, w))|
    ensures |KeptParts(arrivals, w)| <= |results|
  {
    var rest := multiset(results) - multiset(arrivals);
    assert multiset(results) == multiset(arrivals) + rest;
    assert |multiset(results)| == |multiset(arrivals)| + |rest|;
  }

  /** At most one context part per launched search, and so at most one per
      query among the first ten, whatever the timing of the searches. */
  lemma KeptPerLaunched(queries: seq<string>, topK: GoInt, cfg: Config, w: World)
    ensures var n := Min(10, |queries|);
      var arrivals := w.schedule(LaunchResults(queries, n, topK, cfg, w), OverallTimeout(cfg));
      |KeptParts(arrivals, w)| <= CountNonBlank(queries[..n]) <= n
  {
    var n := Min(10, |queries|);
    var results := LaunchResults(queries, n, topK, cfg, w);
    ContextPartsBound(results, w.schedule(results, OverallTimeout(cfg)), w);
    LaunchedCount(queries, n);
  }

  /** The context array: the parts joined with commas and bracketed, or the
      safe default when that is not valid JSON. */
  function ContextJson(parts: seq<string>, w: World): (json: string)
    ensures w.isJson("[" + Join(parts, ',') + "]") ==> json == "[" + Join(parts, ',') + "]"
    ensures !w.isJson("[" + Join(parts, ',') + "]") ==> json == SafeContextJson
    ensures |json| >= 2 && json[0] == '[' && json[|json| - 1] == ']'
  {
    var joined := "[" + Join(parts, ',') + "]";
    if w.isJson(joined) then joined else SafeContextJson
  }

  /** The second-stage user turn: the question and the context array. */
  function WebUserText(q: string, contextJson: string): string {
    "用户问题：" + q + "\n检索资料(JSON)：" + contextJson
  }

  /** The second-stage prompt: the history, the browsing system prompt and the
      question with its context. */
  function WebMessages(p: Prompts, history: seq<Message>, q: string, contextJson: string): (msgs: seq<Message>)
    ensures |msgs| == |history| + 2 && msgs[..|history|] == history
    ensures msgs[|history|] == SystemMsg(p.web) && msgs[|history| + 1] == UserMsg(WebUserText(q, contextJson))
  {
    history + [SystemMsg(p.web), UserMsg(WebUserText(q, contextJson))]
  }

  /** The requests a retry ladder made and how it ended: a reply, or the text
      of the failure reply. */
  datatype LadderRun = LadderRun(requests: seq<Request>, reply: Result<Message>)

  /** The empty-reply retry ladder starting with the n-th request: `msgs` at
      budget `mt`; if that reply is blank, `msgs` again at the retry budget;
      if that is blank too, the short prompt `simple` at 2000. */
  function RetryLadder(gpt: (nat, Request) -> Result<Message>, n: nat, msgs: seq<Message>, mt: GoInt, simple: seq<Message>)
    : (run: LadderRun)
    requires 100 <= mt <= 4000
    ensures 1 <= |run.requests| <= 3
    ensures run.requests[0] == Request(msgs, Some(mt))
    ensures |run.requests| >= 2 ==> run.requests[1] == Request(msgs, Some(RetryBudget(mt)))
    ensures |run.requests| == 3 ==> run.requests[2] == Request(simple, Some(2000))
    ensures forall i :: 0 <= i < |run.requests| - 1 ==>
      gpt(n + i, run.requests[i]).Ok? && IsBlank(gpt(n + i, run.requests[i]).value.content)
    ensures run.reply.Ok? ==>
      && run.reply == gpt(n + |run.requests| - 1, run.requests[|run.requests| - 1])
      && !IsBlank(run.reply.value.content)
    ensures run.reply.Err? ==>
      var last := gpt(n + |run.requests| - 1, run.requests[|run.requests| - 1]);
      || (|run.requests| == 1 && last.Err? && run.reply.msg == BotDown(last.msg))
      || (|run.requests| == 2 && last.Err? && run.reply.msg == RetryFailedText)
      || (|run.requests| == 3 && last.Err? && run.reply.msg == SimpleFailedText)
      || (|run.requests| == 3 && last.Ok? && IsBlank(last.value.content) && run.reply.msg == AllBlankText)
  {
    var r1 := Request(msgs, Some(mt));
    var a1 := gpt(n, r1);
    if a1.Err? then LadderRun([r1], Err(BotDown(a1.msg)))
    else if !IsBlank(a1.value.content) then LadderRun([r1], a1)
    else
      var r2 := Request(msgs, Some(RetryBudget(mt)));
      var a2 := gpt(n + 1, r2);
      if a2.Err? then LadderRun([r1, r2], Err(RetryFailedText))
      else if !IsBlank(a2.value.content) then LadderRun([r1, r2], a2)
      else
        var r3 := Request(simple, Some(2000));
        var a3 := gpt(n + 2, r3);
        if a3.Err? then LadderRun([r1, r2, r3], Err(SimpleFailedText))
        else if IsBlank(a3.value.content) then LadderRun([r1, r2, r3], Err(AllBlankText))
        else LadderRun([r1, r2, r3], a3)
  }

  /** What one run of `MessageAction` does: the completion requests it makes,
      the session it writes (None: untouched), what it sends and its result. */
  datatype Effects = Effects(requests: seq<Request>, session: Option<seq<Message>>, sent: seq<Outgoing>, ok: bool)

  /** The common ending of every successful path: store `final`; the first
      exchange of a session is answered with a new-topic card and stops the
      chain, later ones with a plain reply, whose delivery failure is reported. */
  function Conclude(info: MsgInfo, final: seq<Message>, text: string, deliver: nat -> Option<string>, m: nat, requests: seq<Request>)
    : (e: Effects)
    ensures e.requests == requests && e.session == Some(final)
    ensures |final| == 2 ==> e.sent == [NewTopicCard(info.sessionId, info.msgId, text)] && !e.ok
    ensures |final| != 2 ==> |e.sent| >= 1 && e.sent[0] == Reply(info.msgId, text)
    ensures |final| != 2 ==> (e.ok <==> deliver(m).None?)
  {
    if |final| == 2 then Effects(requests, Some(final), [NewTopicCard(info.sessionId, info.msgId, text)], false)
    else match deliver(m)
      case None => Effects(requests, Some(final), [Reply(info.msgId, text)], true)
      case Some(err) => Effects(requests, Some(final), [Reply(info.msgId, text), Reply(info.msgId, BotDown(err))], false)
  }

  /** A failure that only sends `text` and leaves the session alone. */
  function Fail(info: MsgInfo, requests: seq<Request>, text: string): Effects {
    Effects(requests, None, [Reply(info.msgId, text)], false)
  }

  /** The classifier reply was not a decision: one plain completion over the
      history and the question, stored with its reply. */
  function JsonFallbackPath(info: MsgInfo, history: seq<Message>, w: World, n: nat, m: nat): Effects {
    var msg := history + [UserMsg(info.qParsed)];
    var req := Request(msg, None);
    var c := w.gpt(n, req);
    if c.Err? then Fail(info, [req], BotDown(c.msg))
    else Conclude(info, msg + [c.value], c.value.content, w.deliver, m, [req])
  }

  /** The context array the search path builds for the question `q`. */
  function WebContext(q: string, d: Decision, cfg: Config, w: World): string {
    var queries := SearchQueries(d, q);
    var results := LaunchResults(queries, Min(10, |queries|), ClampCount(d.searchTopK), cfg, w);
    ContextJson(ContextParts(KeptParts(w.schedule(results, OverallTimeout(cfg)), w)), w)
  }

  /** The retry ladder of the search path, starting with the n-th request. */
  function WebLadder(p: Prompts, q: string, history: seq<Message>, d: Decision, cfg: Config, w: World, n: nat): LadderRun {
    RetryLadder(w.gpt, n, WebMessages(p, history, q, WebContext(q, d, cfg, w)), ClampMaxTokens(d.maxTokens),
                [SystemMsg(SimpleWebSystem), UserMsg(q)])
  }

  /** The search path: search, build the context array, ask again with it. */
  function WebPath(p: Prompts, info: MsgInfo, history: seq<Message>, d: Decision, cfg: Config, w: World, n: nat, m: nat): Effects {
    var q := info.qParsed;
    var run := WebLadder(p, q, history, d, cfg, w, n);
    if run.reply.Err? then Fail(info, run.requests, run.reply.msg)
    else
      var answer := run.reply.value.content;
      Conclude(info, history + [UserMsg(q), AssistantMsg(answer)], answer, w.deliver, m, run.requests)
  }

  /** The retry ladder of the answer fallback, starting with the n-th request. */
  function AnswerLadder(q: string, history: seq<Message>, d: Decision, w: World, n: nat): LadderRun {
    RetryLadder(w.gpt, n, history + [UserMsg(q)], ClampMaxTokens(d.maxTokens), [SystemMsg(SimpleSystem), UserMsg(q)])
  }

  /** No search and no answer: complete over the history and the question,
      with the same retry ladder, and store the reply as returned. */
  function AnswerFallbackPath(info: MsgInfo, history: seq<Message>, d: Decision, w: World, n: nat, m: nat): Effects {
    var q := info.qParsed;
    var msg := history + [UserMsg(q)];
    var run := AnswerLadder(q, history, d, w, n);
    if run.reply.Err? then Fail(info, run.requests, run.reply.msg)
    else Conclude(info, msg + [run.reply.value], run.reply.value.content, w.deliver, m, run.requests)
  }

  /** The classifier answered directly. */
  function DirectPath(info: MsgInfo, history: seq<Message>, d: Decision, w: World, m: nat): Effects {
    Conclude(info, history + [UserMsg(info.qParsed), AssistantMsg(d.answer)], d.answer, w.deliver, m, [])
  }

  /** `MessageAction.Execute` over the session `history`, when the handler has
      already made `n` completion requests and sent `m` items. */
  function MessageSpec(p: Prompts, info: MsgInfo, history: seq<Message>, cfg: Config, w: World, n: nat, m: nat): Effects {
    var creq := Request(ClassifyMessages(p, history, info.qParsed), None);
    var cls := w.gpt(n, creq);
    if cls.Err? then Fail(info, [creq], BotDown(cls.msg))
    else
      var e := match w.parseDecision(cls.value.content)
        case None => JsonFallbackPath(info, history, w, n + 1, m)
        case Some(d) =>
          if d.needWeb then WebPath(p, info, history, d, cfg, w, n + 1, m)
          else if d.answer == "" then AnswerFallbackPath(info, history, d, w, n + 1, m)
          else DirectPath(info, history, d, w, m);
      e.(requests := [creq] + e.requests)
  }

  /** How a run of the message action ends for a session with `history`: a
      failure writes nothing and sends one reply; a success stores the history
      plus the question and one answer, answering the first exchange with a
      new-topic card that stops the chain and later ones with a reply
      carrying the stored answer. */
  predicate EndsWell(e: Effects, info: MsgInfo, history: seq<Message>) {
    && (e.session.None? ==> !e.ok && |e.sent| == 1)
    && (e.session.Some? ==>
          var s := e.session.value;
          && |s| == |history| + 2 && s[..|history|] == history && s[|history|] == UserMsg(info.qParsed)
          && (history == [] ==> !e.ok && e.sent == [NewTopicCard(info.sessionId, info.msgId, s[1].content)])
          && (history != [] ==> |e.sent| >= 1 && e.sent[0] == Reply(info.msgId, s[|s| - 1].content)))
  }

  lemma ConcludeEndsWell(info: MsgInfo, history: seq<Message>, answer: Message, deliver: nat -> Option<string>, m: nat, requests: seq<Request>)
    ensures EndsWell(Conclude(info, history + [UserMsg(info.qParsed), answer], answer.content, deliver, m, requests), info, history)
  {
    var s := history + [UserMsg(info.qParsed), answer];
    assert s[..|history|] == history;
  }

  /** The fallback after an undecodable classification makes exactly one plain
      request, over the history and the question, and stores its reply as
      returned exactly when that request succeeds. */
  lemma JsonFallbackEndsWell(info: MsgInfo, history: seq<Message>, w: World, n: nat, m: nat)
    ensures EndsWell(JsonFallbackPath(info, history, w, n, m), info, history)
    ensures var e := JsonFallbackPath(info, history, w, n, m);
      var req := Request(history + [UserMsg(info.qParsed)], None);
      && e.requests == [req]
      && (e.session.Some? <==> w.gpt(n, req).Ok?)
      && (e.session.Some? ==> e.session.value == history + [UserMsg(info.qParsed), w.gpt(n, req).value])
  {
    var msg := history + [UserMsg(info.qParsed)];
    var c := w.gpt(n, Request(msg, None));
    if c.Ok? {
      assert msg + [c.value] == history + [UserMsg(info.qParsed), c.value];
      ConcludeEndsWell(info, history, c.value, w.deliver, m, [Request(msg, None)]);
    }
  }

  /** The search path makes the requests of its retry ladder and stores the
      answer, as an assistant message with the reply's text, exactly when
      the ladder produced one. */
  lemma WebPathEndsWell(p: Prompts, info: MsgInfo, history: seq<Message>, d: Decision, cfg: Config, w: World, n: nat, m: nat)
    ensures EndsWell(WebPath(p, info, history, d, cfg, w, n, m), info, history)
    ensures var e := WebPath(p, info, history, d, cfg, w, n, m);
      var run := WebLadder(p, info.qParsed, history, d, cfg, w, n);
      && e.requests == run.requests && 1 <= |e.requests| <= 3
      && (e.session.Some? <==> run.reply.Ok?)
      && (e.session.Some? ==> e.session.value == history + [UserMsg(info.qParsed), AssistantMsg(run.reply.value.content)])
  {
    var run := WebLadder(p, info.qParsed, history, d, cfg, w, n);
    if run.reply.Ok? {
      ConcludeEndsWell(info, history, AssistantMsg(run.reply.value.content), w.deliver, m, run.requests);
    }
  }

  /** The answer fallback makes the requests of its retry ladder and stores
      the reply as returned exactly when the ladder produced one. */
  lemma AnswerFallbackEndsWell(info: MsgInfo, history: seq<Message>, d: Decision, w: World, n: nat, m: nat)
    ensures EndsWell(AnswerFallbackPath(info, history, d, w, n, m), info, history)
    ensures var e := AnswerFallbackPath(info, history, d, w, n, m);
      var run := AnswerLadder(info.qParsed, history, d, w, n);
      && e.requests == run.requests && 1 <= |e.requests| <= 3
      && (e.session.Some? <==> run.reply.Ok?)
      && (e.session.Some? ==> e.session.value == history + [UserMsg(info.qParsed), run.reply.value])
  {
    var run := AnswerLadder(info.qParsed, history, d, w, n);
    if run.reply.Ok? {
      assert history + [UserMsg(info.qParsed)] + [run.reply.value] == history + [UserMsg(info.qParsed), run.reply.value];
      ConcludeEndsWell(info, history, run.reply.value, w.deliver, m, run.requests);
    }
  }

  /** One classification request comes first, then at most three more.
      Every write-back is the old history plus exactly two messages, the
      question and the answer; a run that writes nothing fails with one reply.
      The first exchange of a session (empty history) is answered by a
      new-topic card and stops the chain; a later successful exchange is
      answered by a reply carrying the stored answer. */
  lemma MessageOutcome(p: Prompts, info: MsgInfo, history: seq<Message>, cfg: Config, w: World, n: nat, m: nat)
    ensures var e := MessageSpec(p, info, history, cfg, w, n, m);
      && 1 <= |e.requests| <= 4
      && e.requests[0] == Request(ClassifyMessages(p, history, info.qParsed), None)
    ensures var e := MessageSpec(p, info, history, cfg, w, n, m);
      && (e.session.None? ==> !e.ok && |e.sent| == 1)
      && (e.session.Some? ==>
            var s := e.session.value;
            && |s| == |history| + 2 && s[..|history|] == history && s[|history|] == UserMsg(info.qParsed)
            && (history == [] ==> !e.ok && e.sent == [NewTopicCard(info.sessionId, info.msgId, s[1].content)])
            && (history != [] ==> |e.sent| >= 1 && e.sent[0] == Reply(info.msgId, s[|s| - 1].content)))
  {
    var cls := w.gpt(n, Request(ClassifyMessages(p, history, info.qParsed), None));
    if cls.Ok? {
      match w.parseDecision(cls.value.content)
      case None => JsonFallbackEndsWell(info, history, w, n + 1, m);
      case Some(d) =>
        if d.needWeb {
          WebPathEndsWell(p, info, history, d, cfg, w, n + 1, m);
        } else if d.answer == "" {
          AnswerFallbackEndsWell(info, history, d, w, n + 1, m);
        } else {
          ConcludeEndsWell(info, history, AssistantMsg(d.answer), w.deliver, m, []);
        }
    }
    assert EndsWell(MessageSpec(p, info, history, cfg, w, n, m), info, history);
  }

  /** The route the message action takes after the classification request,
      and what each route asks and stores: a failed classification sends one
      failure reply and stores nothing; an undecodable one makes exactly one
      plain request and stores its reply as returned; the search path and the
      answer fallback store an answer exactly when their retry ladder yields
      one, the search path as an assistant message with the reply's text and
      the fallback as returned; a direct answer makes no further request. */
  lemma MessageRoutes(p: Prompts, info: MsgInfo, history: seq<Message>, cfg: Config, w: World, n: nat, m: nat)
    ensures var creq := Request(ClassifyMessages(p, history, info.qParsed), None);
      var cls := w.gpt(n, creq);
      var e := MessageSpec(p, info, history, cfg, w, n, m);
      cls.Err? ==> e == Effects([creq], None, [Reply(info.msgId, BotDown(cls.msg))], false)
    ensures var creq := Request(ClassifyMessages(p, history, info.qParsed), None);
      var cls := w.gpt(n, creq);
      var e := MessageSpec(p, info, history, cfg, w, n, m);
      var req := Request(history + [UserMsg(info.qParsed)], None);
      cls.Ok? && w.parseDecision(cls.value.content).None? ==>
        && e.requests == [creq, req]
        && (e.session.Some? <==> w.gpt(n + 1, req).Ok?)
        && (e.session.Some? ==> e.session.value == history + [UserMsg(info.qParsed), w.gpt(n + 1, req).value])
    ensures var creq := Request(ClassifyMessages(p, history, info.qParsed), None);
      var cls := w.gpt(n, creq);
      var e := MessageSpec(p, info, history, cfg, w, n, m);
      cls.Ok? && w.parseDecision(cls.value.content).Some? && w.parseDecision(cls.value.content).value.needWeb ==>
        var run := WebLadder(p, info.qParsed, history, w.parseDecision(cls.value.content).value, cfg, w, n + 1);
        && e.requests == [creq] + run.requests
        && (e.session.Some? <==> run.reply.Ok?)
        && (e.session.Some? ==> e.session.value == history + [UserMsg(info.qParsed), AssistantMsg(run.reply.value.content)])
    ensures var creq := Request(ClassifyMessages(p, history, info.qParsed), None);
      var cls := w.gpt(n, creq);
      var e := MessageSpec(p, info, history, cfg, w, n, m);
      cls.Ok? && w.parseDecision(cls.value.content).Some? && !w.parseDecision(cls.value.content).value.needWeb
        && w.parseDecision(cls.value.content).value.answer == "" ==>
        var run := AnswerLadder(info.qParsed, history, w.parseDecision(cls.value.content).value, w, n + 1);
        && e.requests == [creq] + run.requests
        && (e.session.Some? <==> run.reply.Ok?)
        && (e.session.Some? ==> e.session.value == history + [UserMsg(info.qParsed), run.reply.value])
    ensures var creq := Request(ClassifyMessages(p, history, info.qParsed), None);
      var cls := w.gpt(n, creq);
      var e := MessageSpec(p, info, history, cfg, w, n, m);
      cls.Ok? && w.parseDecision(cls.value.content).Some? && !w.parseDecision(cls.value.content).value.needWeb
        && w.parseDecision(cls.value.content).value.answer != "" ==>
        var answer := w.parseDecision(cls.value.content).value.answer;
        e.requests == [creq] && e.session == Some(history + [UserMsg(info.qParsed), AssistantMsg(answer)])
  {
    var creq := Request(ClassifyMessages(p, history, info.qParsed), None);
    var cls := w.gpt(n, creq);
    if cls.Ok? {
      match w.parseDecision(cls.value.content)
      case None => JsonFallbackEndsWell(info, history, w, n + 1, m);
      case Some(d) =>
        if d.needWeb {
          WebPathEndsWell(p, info, history, d, cfg, w, n + 1, m);
        } else if d.answer == "" {
          AnswerFallbackEndsWell(info, history, d, w, n + 1, m);
        }
    }
  }
}
