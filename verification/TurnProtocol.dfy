/** The turn as a small-step machine: at each place, the one effect that is due next, and the
    place it leads to. The agent loop's log is proved to be a path of this machine. */
module TurnProtocol {
  import opened Wrappers
  import opened Usage
  import opened TurnLog

  /** What one dispatched tool call leads to: the after-hook's content and the transcript
      summary are None when that hook throws. */
  datatype ToolReply = ToolReply(isError: bool, silent: bool, content: Option<string>, summary: Option<string>)

  datatype Prep = Prep(messages: seq<Message>, citations: bool, retrievalUsage: TokenUsage)

  /** The outside world: its answers, by the position in the log at which it is asked. */
  datatype Environment = Environment(
    entered: nat -> bool,
    prepared: nat -> Option<Prep>,
    lease: nat -> LeaseReply,
    model: nat -> Script,
    gate: nat -> Verdict,
    tool: nat -> ToolReply,
    write: nat -> bool,
    abandons: nat -> bool)

  datatype Config = Config(maxToolIterations: nat, turnTokenBudget: Option<int>, hasQuota: bool)

  const HELD_TURN_FALLBACK := "I’ve set that aside for you to confirm."

  /** How a run of the loop ends: the room was lost, a terminal event was emitted, an error
      propagates, or the consumer closed the generator at a yield. */
  datatype Exit = Superseded | Ended | Threw | Abandoned

  function Settlement(config: Config, tokens: int): seq<int> {
    if config.hasQuota && tokens > 0 then [tokens] else []
  }

  /** The whitespace that `String.prototype.trim` removes. */
  predicate IsSpace(c: char) {
    || '\U{0009}' <= c <= '\U{000D}' || c == ' ' || c == '\U{00A0}' || c == '\U{1680}'
    || '\U{2000}' <= c <= '\U{200A}' || c == '\U{2028}' || c == '\U{2029}' || c == '\U{202F}'
    || c == '\U{205F}' || c == '\U{3000}' || c == '\U{FEFF}'
  }

  predicate Blank(text: string) {
    forall i :: 0 <= i < |text| ==> IsSpace(text[i])
  }

  /** `a || b` on strings: the empty string is falsy. */
  function Or(a: string, b: string): string {
    if a == "" then b else a
  }

  /** The running context: the message log, the text of the last answer, the model calls made
      and the tokens they metered, and those of retrieval. */
  datatype Ctx = Ctx(ms: seq<Message>, said: string, calls: nat, metered: int, retrieval: int)

  /** What one round of tool calls held back so far: whether any, which, and the first reason
      given for a call held back without a proposal. */
  datatype Hold = Hold(blocked: bool, held: seq<Proposal>, reason: string)

  const NOTHING_HELD := Hold(false, [], "")

  /** The two ceilings of the loop. */
  predicate CeilingMet(config: Config, calls: nat, metered: int) {
    calls >= config.maxToolIterations || (config.turnTokenBudget.Some? && metered >= config.turnTokenBudget.value)
  }

  datatype Place =
    | Sources(c: Ctx)
    | Top(c: Ctx)
    | Checked(c: Ctx)
    | Calling(c: Ctx, script: Script, pulled: nat)
    | Spoken(c: Ctx)
    | Cleared(c: Ctx)
    | Asking(c: Ctx, left: seq<ToolCall>, h: Hold)
    | Allowed(c: Ctx, call: ToolCall, gated: ToolCall, left: seq<ToolCall>, h: Hold)
    | RowDue(c: Ctx, summary: Option<string>, left: seq<ToolCall>, h: Hold)
    | RowCleared(c: Ctx, row: string, left: seq<ToolCall>, h: Hold)
    | RowKept(c: Ctx, row: string, left: seq<ToolCall>, h: Hold)
    | Blocked(c: Ctx, h: Hold)
    | Holding(text: string, owed: int, h: Hold)
    | Surfacing(owed: int, actions: seq<Proposal>, preamble: Option<string>, lastRow: Option<string>, h: Hold)
    | Tried(owed: int, actions: seq<Proposal>, preamble: Option<string>, lastRow: Option<string>, h: Hold)
    | Settling(owed: int, carried: Option<string>, h: Hold)
    | Ending(carried: Option<string>, h: Hold)
    | Mute
    | Aborting(estimate: TokenUsage, owed: int)
    | Owing(owed: int, exit: Exit)
    | Out(exit: Exit)

  function OwedAt(c: Ctx): int {
    c.retrieval + c.metered
  }

  /** A stop in the middle: what is owed is settled, if anything is. */
  function Owe(config: Config, owed: int, exit: Exit): Place {
    if Settlement(config, owed) == [] then Out(exit) else Owing(owed, exit)
  }

  /** An end in order: the settlement, then the terminal event. */
  function Settle(config: Config, owed: int, carried: Option<string>, h: Hold): Place {
    if Settlement(config, owed) == [] then Ending(carried, h) else Settling(owed, carried, h)
  }

  function Surface(config: Config, owed: int, actions: seq<Proposal>, preamble: Option<string>,
                   lastRow: Option<string>, h: Hold): Place {
    if actions != [] then Surfacing(owed, actions, preamble, lastRow, h)
    else Settle(config, owed, if preamble.Some? then preamble else lastRow, h)
  }

  /** The next tool call of the round; after the last, the loop again unless something was held. */
  function Walk(c: Ctx, left: seq<ToolCall>, h: Hold): Place {
    if left != [] then Asking(c, left, h) else if h.blocked then Blocked(c, h) else Top(c)
  }

  /** An answered call: the reply, or the tools it asks for. */
  function Answer(c: Ctx, text: string, result: StreamResult): Place {
    var c1 := c.(said := text, metered := c.metered + result.usage.totalTokens);
    if result.toolCalls == [] then Spoken(c1)
    else Asking(c1.(ms := c.ms + [Assistant(text, result.toolCalls)]), result.toolCalls, NOTHING_HELD)
  }

  function HoldBack(h: Hold, proposal: Option<Proposal>, reason: string): Hold {
    if proposal.Some? then Hold(true, h.held + [proposal.value], h.reason)
    else Hold(true, h.held, if h.reason == "" then reason else h.reason)
  }

  function ReplyText(c: Ctx): string {
    Or(c.said, PARTIAL_FALLBACK)
  }

  function FallbackText(h: Hold): string {
    Or(h.reason, Or(if h.held == [] then "" else h.held[0].summary, HELD_TURN_FALLBACK))
  }

  /** The effect due at position k, None once the run is out. */
  function Due(env: Environment, config: Config, p: Place, k: nat): Option<Effect> {
    match p
    case Sources(_) => Some(Emitted(CitationsEvent))
    case Top(_) => Some(Lease(env.lease(k)))
    case Checked(c) =>
      if CeilingMet(config, c.calls, c.metered) then Some(Wrote(Reply, ReplyText(c), env.write(k)))
      else Some(CallStarted(c.ms, env.model(k)))
    case Calling(_, script, n) =>
      if n < |script.chunks| then Some(Emitted(TokenEvent(script.chunks[n])))
      else if script.end.Some? then Some(CallEnded(script.end.value.usage)) else Some(CallFaulted)
    case Spoken(_) => Some(Lease(env.lease(k)))
    case Cleared(c) => Some(Wrote(Reply, c.said, env.write(k)))
    case Asking(_, left, _) => if left == [] then None else Some(Gated(left[0], env.gate(k)))
    case Allowed(_, _, gated, _, _) => Some(Dispatched(gated))
    case RowDue(_, _, _, _) => Some(Lease(env.lease(k)))
    case RowCleared(_, row, _, _) => Some(Wrote(ToolStep, row, env.write(k)))
    case RowKept(_, row, _, _) => Some(Emitted(ToolStepEvent(row)))
    case Blocked(_, _) => Some(Lease(env.lease(k)))
    case Holding(text, _, _) => Some(Wrote(Preamble, text, env.write(k)))
    case Surfacing(_, actions, _, _, _) =>
      if actions == [] then None else Some(Wrote(ProposalRow, actions[0].summary, env.write(k)))
    case Tried(_, actions, _, _, _) => if actions == [] then None else Some(Emitted(ProposalEvent(actions[0])))
    case Settling(owed, _, _) => Some(Debited(owed))
    case Ending(carried, h) =>
      if carried.Some? then Some(Emitted(DoneEvent(carried.value)))
      else Some(Wrote(Terminal, FallbackText(h), env.write(k)))
    case Mute => Some(Emitted(ErrorEvent))
    case Aborting(estimate, _) => Some(CallAborted(estimate))
    case Owing(owed, _) => Some(Debited(owed))
    case Out(_) => None
  }

  /** Where that effect leads. */
  function Next(env: Environment, config: Config, p: Place, k: nat): Place {
    match p
    case Sources(c) => if env.abandons(k) then Out(Abandoned) else Top(c)
    case Top(c) => if env.lease(k) == Lost then Owe(config, OwedAt(c), Superseded) else Checked(c)
    case Checked(c) =>
      if CeilingMet(config, c.calls, c.metered) then
        if env.write(k) then Settle(config, OwedAt(c), Some(ReplyText(c)), NOTHING_HELD) else Out(Threw)
      else Calling(c.(calls := c.calls + 1), env.model(k), 0)
    case Calling(c, script, n) =>
      if n < |script.chunks| then
        if env.abandons(k)
        then Aborting(EstimateUsage(PromptText(c.ms), Joined(script.chunks[..n + 1])), OwedAt(c))
        else Calling(c, script, n + 1)
      else if script.end.Some? then Answer(c, Joined(script.chunks), script.end.value)
      else Owe(config, OwedAt(c), Threw)
    case Spoken(c) => if env.lease(k) == Lost then Owe(config, OwedAt(c), Superseded) else Cleared(c)
    case Cleared(c) =>
      if env.write(k) then Settle(config, OwedAt(c), Some(c.said), NOTHING_HELD) else Out(Threw)
    case Asking(c, left, h) =>
      if left == [] then p
      else (match env.gate(k)
            case GateThrows => Owe(config, OwedAt(c), Threw)
            case Block(proposal, reason) => Walk(c, left[1..], HoldBack(h, proposal, reason))
            case Allow(gated) => Allowed(c, left[0], gated, left[1..], h))
    case Allowed(c, call, _, left, h) =>
      var reply := env.tool(k);
      if reply.content.None? then Owe(config, OwedAt(c), Threw)
      else
        var c1 := c.(ms := c.ms + [Tool(reply.content.value, call.id)]);
        if reply.isError || reply.silent then Walk(c1, left, h) else RowDue(c1, reply.summary, left, h)
    case RowDue(c, summary, left, h) =>
      if env.lease(k) == Lost then Owe(config, OwedAt(c), Superseded)
      else if summary.None? then Owe(config, OwedAt(c), Threw)
      else RowCleared(c, summary.value, left, h)
    case RowCleared(c, row, left, h) => if env.write(k) then RowKept(c, row, left, h) else Walk(c, left, h)
    case RowKept(c, _, left, h) => if env.abandons(k) then Owe(config, OwedAt(c), Abandoned) else Walk(c, left, h)
    case Blocked(c, h) =>
      if env.lease(k) == Lost then Owe(config, OwedAt(c), Superseded)
      else if Blank(c.said) then Surface(config, OwedAt(c), h.held, None, None, h)
      else Holding(c.said, OwedAt(c), h)
    case Holding(text, owed, h) =>
      if env.write(k) then Surface(config, owed, h.held, Some(text), None, h) else Out(Threw)
    case Surfacing(owed, actions, preamble, lastRow, h) =>
      if actions == [] then p
      else Tried(owed, actions, preamble, if env.write(k) then Some(actions[0].summary) else lastRow, h)
    case Tried(owed, actions, preamble, lastRow, h) =>
      if actions == [] then p
      else if env.abandons(k) then Out(Abandoned)
      else Surface(config, owed, actions[1..], preamble, lastRow, h)
    case Settling(_, carried, h) => Ending(carried, h)
    case Ending(carried, h) =>
      if carried.Some? then Out(if env.abandons(k) then Abandoned else Ended)
      else if env.write(k) then Ending(Some(FallbackText(h)), h) else Mute
    case Mute => Out(if env.abandons(k) then Abandoned else Ended)
    case Aborting(estimate, owed) => Owe(config, owed + estimate.totalTokens, Abandoned)
    case Owing(_, exit) => Out(exit)
    case Out(_) => p
  }

  /** The i-th effect from position `from` on is the one that was due where the run stood, and
      leads to where it stands next. */
  predicate LinkedAt(
    env: Environment, config: Config, path: seq<Place>, log: seq<Effect>, from: nat, i: nat)
  {
    && i + 1 < |path| && from + i < |log|
    && Due(env, config, path[i], from + i) == Some(log[from + i])
    && Next(env, config, path[i], from + i) == path[i + 1]
  }

  /** A path of the protocol, and the effects along it. */
  predicate IsPath(env: Environment, config: Config, path: seq<Place>, log: seq<Effect>, from: nat) {
    && from <= |log| && |path| == |log| - from + 1
    && forall i: nat :: i + 1 < |path| ==> LinkedAt(env, config, path, log, from, i)
  }

  lemma LinkStays(env: Environment, config: Config, path: seq<Place>, log: seq<Effect>, from: nat, i: nat,
                  path': seq<Place>, log': seq<Effect>)
    requires LinkedAt(env, config, path, log, from, i) && path <= path' && log <= log'
    ensures LinkedAt(env, config, path', log', from, i)
  {
  }

  lemma PathSnoc(
    env: Environment, config: Config, path: seq<Place>, log: seq<Effect>, from: nat, e: Effect, next: Place)
    requires IsPath(env, config, path, log, from)
    requires Due(env, config, path[|path| - 1], |log|) == Some(e) && Next(env, config, path[|path| - 1], |log|) == next
    ensures IsPath(env, config, path + [next], log + [e], from)
  {
    forall i: nat | i < |path|
      ensures LinkedAt(env, config, path + [next], log + [e], from, i)
    {
      if i + 1 < |path| {
        LinkStays(env, config, path, log, from, i, path + [next], log + [e]);
      }
    }
  }

  /** What the log records as the k-th effect is what the environment answers at k. */
  predicate AnsweredBy(env: Environment, e: Effect, k: nat) {
    match e
    case Lease(reply) => reply == env.lease(k)
    case CallStarted(_, script) => script == env.model(k)
    case Gated(_, verdict) => verdict == env.gate(k)
    case Wrote(_, _, ok) => ok == env.write(k)
    case _ => true
  }

  lemma DueIsAnswered(env: Environment, config: Config, p: Place, k: nat, e: Effect)
    requires Due(env, config, p, k) == Some(e)
    ensures AnsweredBy(env, e, k)
  {
  }

  /** Where the loop starts. */
  function Start(messages: seq<Message>, citations: bool, retrieval: int): Place {
    var c := Ctx(messages, "", 0, 0, retrieval);
    if citations then Sources(c) else Top(c)
  }
}
