/** What the handlers exchange with the world outside the model: completion
    requests, outgoing chat messages and cards, and the oracles that stand in
    for the completion service, message delivery, the search back ends, JSON
    handling, the scheduler of concurrent searches and helpers whose code is
    not part of this model. */
module Environment {
  import opened Base
  import opened Types
  import opened Web
  import opened Events

  /** The classifier's decision (`webDecision`), as decoded from its JSON reply;
      absent numeric fields decode as 0. */
  datatype Decision = Decision(
    needWeb: bool,
    queries: seq<string>,
    answer: string,
    reason: string,
    searchTopK: GoInt,
    maxTokens: GoInt)

  /** A search launched for the query at position `index` of the query list. */
  datatype SearchTask = SearchTask(index: nat, query: string)

  /** What a launched search reports back: its context JSON, or an error. */
  datatype TaskResult = TaskResult(index: nat, query: string, outcome: Result<string>)

  /** The arrivals the collector sees from a list of launched searches, given
      the overall timeout in nanoseconds: some of those outcomes, in arrival
      order, none of them twice and nothing that was not launched. */
  type Scheduler = f: (seq<TaskResult>, GoInt) -> seq<TaskResult> |
    forall rs, t :: multiset(f(rs, t)) <= multiset(rs)
    witness (rs: seq<TaskResult>, t: GoInt) => rs

  /** One completion request: `Completions` has no token budget,
      `CompletionsWithMaxTokens` has one. */
  datatype Request = Request(msgs: seq<Message>, maxTokens: Option<GoInt>)

  /** Everything the bot sends to the chat. */
  datatype Outgoing =
    | Reply(msgId: string, text: string)                            // replyMsg
    | Send(chatId: string, text: string)                            // sendMsg
    | NewTopicCard(sessionId: string, msgId: string, text: string)   // sendNewTopicCard
    | ClearCacheCard(sessionId: string, msgId: string)              // sendClearCacheCheckCard
    | SystemCard(sessionId: string, msgId: string, text: string)     // sendSystemInstructionCard
    | HelpCard(sessionId: string, msgId: string)                    // sendHelpCard
    | BalanceCard(sessionId: string, balance: string)               // sendBalanceCard
    | RoleTagsCard(sessionId: string, msgId: string, tags: seq<string>) // SendRoleTagsCard

  datatype World = World(
    // the reply to the completion request made as the n-th request of the handler
    gpt: (nat, Request) -> Result<Message>,
    // the delivery error, if any, of the message sent as the n-th outgoing item
    deliver: nat -> Option<string>,
    // the web search back ends
    net: Net,
    // json.Unmarshal of a classifier reply into a decision
    parseDecision: string -> Option<Decision>,
    // whether json.Unmarshal accepts a text
    isJson: string -> bool,
    // Go's %q quoting
    quote: string -> string,
    // whether the search for a query outlives its per-task timeout (in nanoseconds)
    timedOut: (string, GoInt) -> bool,
    // the results, in arrival order, that reach the collector before the overall timeout (in nanoseconds)
    schedule: Scheduler,
    // utils.EitherTrimEqual(s, a, b)
    trimEqual: (string, string, string) -> bool,
    // utils.EitherCutPrefix(s, a, b): the remainder after whichever prefix matched
    cutPrefix: (string, string, string) -> Option<string>,
    // parseContent
    parseContent: string -> string,
    // whether AudioAction and PicAction let a message through
    audio: MsgInfo -> bool,
    pic: MsgInfo -> bool,
    // GetBalance, rendered for the balance card
    balance: Result<string>,
    // initialization.GetAllUniqueTags
    roleTags: seq<string>)
}
