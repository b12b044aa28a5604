/** The agent loop: bounded tool iteration, owner fences before writes, one settlement.
    Everything outside the loop (model, tools, gate, database, consumer) answers through
    `Environment`, indexed by the position in the effect log at which it is asked. */
module Harness {
  import opened Wrappers
  import opened Usage
  import opened TurnLog
  import opened TurnProtocol

  /** The four exits that settle nothing: closed at the citations, closed at a proposal, or
      a throwing append of the reply or of the pre-amble. */
  predicate Unbilled(last: Option<Effect>, exit: Exit) {
    last.Some? &&
    match last.value
    case Emitted(CitationsEvent) => exit == Abandoned
    case Emitted(ProposalEvent(_)) => exit == Abandoned
    case Wrote(Reply, _, false) => exit == Threw
    case Wrote(Preamble, _, false) => exit == Threw
    case _ => false
  }

  /** Nothing lost, written or announced out of turn so far. */
  predicate Unannounced(m: Monitor) {
    m.fenced && m.paired && m.quiet && m.truthful && !m.lost && m.finals == 0
  }

  /** Nor settled, and no call in flight. */
  predicate Running(m: Monitor) {
    Unannounced(m) && m.debits == [] && m.meter.honest && !m.meter.inFlight
  }

  /** The books are as they were: calls, debits and proposals. */
  predicate SameBooks(a: Monitor, b: Monitor) {
    && b.meter == a.meter && b.calls == a.calls && b.debits == a.debits
    && b.held == a.held && b.surfaced == a.surfaced
  }

  /** Nothing but the stream's own business happened in between. */
  predicate SameStanding(a: Monitor, b: Monitor) {
    && b.fenced == a.fenced && b.paired == a.paired && b.truthful == a.truthful && b.lost == a.lost
    && b.debits == a.debits && b.finals == a.finals && b.calls == a.calls
    && b.held == a.held && b.surfaced == a.surfaced
  }

  /** No action is held. */
  predicate NoneHeld(m: Monitor) {
    m.held == [] && m.surfaced == []
  }

  /** A stop in the middle of the loop: nothing settled or announced yet. */
  predicate Halted(m: Monitor, exit: Exit) {
    && m.fenced && m.paired && m.quiet && m.truthful && m.debits == [] && m.finals == 0
    && exit != Ended && (exit == Superseded <==> m.lost) && !Unbilled(m.last, exit)
    && m.meter.honest && (m.meter.inFlight ==> exit == Abandoned)
  }

  /** Nothing has happened yet but the entry. */
  predicate Untouched(m: Monitor) {
    Running(m) && NoneHeld(m) && m.calls == 0 && m.meter == NO_CALL
  }

  predicate Announced(m: Monitor) {
    m.finals == 1 && m.lastEvent.Some? && Final(m.lastEvent.value)
  }

  /** What a finished run owes its caller, its owner and its wallet. */
  predicate Concluded(m: Monitor, exit: Exit, due: seq<int>) {
    && m.fenced && m.paired && m.quiet && m.truthful && (exit == Superseded <==> m.lost)
    && m.meter.honest && !m.meter.inFlight
    && m.debits == (if Unbilled(m.last, exit) then [] else due)
    && (exit == Ended ==> Announced(m))
    && (exit == Threw || exit == Superseded ==> m.finals == 0)
    && (exit == Abandoned ==> m.finals <= 1)
  }

  datatype CallOutcome = Answered(toolCalls: seq<ToolCall>) | CallThrew | CallAbandoned

  datatype Forwarded = More(text: string) | Gone | Over(toolCalls: seq<ToolCall>) | Broken

  datatype CallStep = HeldBack(proposal: Option<Proposal>, reason: string) | RanTool | StoppedAt(exit: Exit)

  datatype Walk = Walked(blocked: bool, held: seq<Proposal>, reason: string) | Stopped(exit: Exit)

  class AgentLoop {
    const env: Environment
    const config: Config
    const base: seq<Message>
    const citations: bool
    const retrievalUsage: TokenUsage
    const acc: UsageAccumulator
    const entry: seq<Effect>
    const start: Place
    var messages: seq<Message>
    var settledNormally: bool
    var activeStream: MeteredStream?
    var lastText: string
    var log: seq<Effect>

    ghost var m: Monitor
    ghost var at: Place
    ghost var path: seq<Place>

    /** The monitor has read the log. Quantified, so that the log is replayed only where
        `Watch` is mentioned. */
    ghost predicate Monitored()
      reads this`log, this`m
    {
      forall l: seq<Effect> {:trigger Watch(base, l)} :: l == log ==> m == Watch(base, l)
    }

    /** And the log is a path of the protocol, which stands at `at`. */
    ghost predicate Watched()
      reads this`log, this`m, this`at, this`path
    {
      && entry <= log && Monitored()
      && IsPath(env, config, path, log, |entry|) && path[0] == start && at == path[|path| - 1]
    }

    /** The protocol's running context is the loop's. */
    ghost predicate InStep(c: Ctx)
      reads this`messages, this`m
    {
      && c.ms == messages && c.calls == m.calls
      && c.metered == m.meter.metered && c.retrieval == retrievalUsage.totalTokens
    }

    /** A call has just been answered: with the reply, or with tools to run. */
    ghost predicate AnswerDue(text: string, toolCalls: seq<ToolCall>)
      reads this`messages, this`m, this`at
    {
      if toolCalls == [] then at.Spoken? && InStep(at.c) && at.c.said == text
      else
        && at.Asking? && at.left == toolCalls && at.h == NOTHING_HELD && at.c.said == text
        && at.c.ms == messages + [Assistant(text, toolCalls)] && InStep(at.c.(ms := messages))
    }

    /** The effect is the one that is due. */
    ghost predicate IsDue(e: Effect)
      reads this`log, this`at
    {
      Due(env, config, at, |log|) == Some(e)
    }

    ghost function After(): Place
      reads this`log, this`at
    {
      Next(env, config, at, |log|)
    }

    ghost predicate Valid()
      reads this, acc, activeStream
    {
      && Watched()
      && acc.total.totalTokens == m.meter.metered
      && (activeStream != null ==> activeStream.Valid() && activeStream.sink == acc)
      && (m.meter.inFlight <==> activeStream != null && activeStream.phase != Finished)
      && (m.meter.inFlight ==>
            && activeStream.promptText == m.meter.prompt
            && activeStream.script == m.meter.script
            && activeStream.streamedText == m.meter.streamed)
    }

    ghost function Owed(): int
      reads this`m
    {
      retrievalUsage.totalTokens + m.meter.metered
    }

    constructor (env: Environment, config: Config, prep: Prep, entry: seq<Effect>)
      requires Watch(prep.messages, entry).meter == NO_CALL
      ensures Valid() && fresh(acc) && activeStream == null && !settledNormally
      ensures m == Watch(prep.messages, entry) && log == entry && messages == base == prep.messages
      ensures this.env == env && this.config == config && this.entry == entry
      ensures citations == prep.citations && retrievalUsage == prep.retrievalUsage && lastText == ""
      ensures at == start == Start(base, citations, retrievalUsage.totalTokens)
    {
      this.env, this.config, this.entry := env, config, entry;
      base, messages := prep.messages, prep.messages;
      citations, retrievalUsage := prep.citations, prep.retrievalUsage;
      acc := new UsageAccumulator();
      settledNormally, activeStream, lastText := false, null, "";
      log, m := entry, Watch(prep.messages, entry);
      start := Start(prep.messages, prep.citations, prep.retrievalUsage.totalTokens);
      at := Start(prep.messages, prep.citations, prep.retrievalUsage.totalTokens);
      path := [Start(prep.messages, prep.citations, prep.retrievalUsage.totalTokens)];
    }

    lemma ReadLog()
      requires Watched()
      ensures m == Watch(base, log)
    {
    }

    lemma ReadMonitor()
      requires Monitored()
      ensures m == Watch(base, log)
    {
    }

    method Append(e: Effect)
      requires Monitored()
      modifies this`log, this`m
      ensures Monitored() && m == Observe(base, old(m), e) && log == old(log) + [e]
    {
      ReadMonitor();
      WatchSnoc(base, log, e);
      log, m := log + [e], Observe(base, m, e);
    }

    method Log(e: Effect)
      requires Watched() && IsDue(e)
      modifies this`log, this`m, this`at, this`path
      ensures Watched() && m == Observe(base, old(m), e) && log == old(log) + [e] && at == old(After())
    {
      ghost var next := After();
      PathSnoc(env, config, path, log, |entry|, e, next);
      Append(e);
      at, path := next, path + [next];
    }

    /** A `yield`: the consumer takes the event, and may then close the generator. */
    method Emit(event: ChatEvent) returns (abandoned: bool)
      requires Watched() && IsDue(Emitted(event))
      modifies this`log, this`m, this`at, this`path
      ensures Watched() && at == old(After())
      ensures m == Observe(base, old(m), Emitted(event)) && log == old(log) + [Emitted(event)]
      ensures abandoned == env.abandons(|old(log)|)
    {
      abandoned := env.abandons(|log|);
      Log(Emitted(event));
    }

    method Write(kind: RowKind, text: string) returns (ok: bool)
      requires Watched() && IsDue(Wrote(kind, text, env.write(|log|)))
      modifies this`log, this`m, this`at, this`path
      ensures Watched() && at == old(After())
      ensures m == Observe(base, old(m), Wrote(kind, text, ok)) && log == old(log) + [Wrote(kind, text, ok)]
      ensures ok == env.write(|old(log)|)
    {
      ok := env.write(|log|);
      Log(Wrote(kind, text, ok));
    }

    /** A row covered by the fence: the run is where it was, but for the row. */
    method Persist(kind: RowKind, text: string) returns (ok: bool)
      requires Valid() && Unannounced(m) && m.armed && InItsOwnWords(kind, text, m.meter.streamed)
      requires IsDue(Wrote(kind, text, env.write(|log|)))
      modifies this`log, this`m, this`at, this`path
      ensures Valid() && Unannounced(m) && m.armed && SameBooks(old(m), m) && at == old(After())
      ensures m.persisted == if ok then old(m.persisted) + {Row(kind, text)} else old(m.persisted)
      ensures m.last == Some(Wrote(kind, text, ok)) && ok == env.write(|old(log)|)
    {
      ok := Write(kind, text);
    }

    /** The settlement of a run that ends in order. */
    method Settle(ghost carried: Option<string>, ghost h: Hold)
      requires Valid() && Unannounced(m) && m.debits == []
      requires at == TurnProtocol.Settle(config, Owed(), carried, h)
      modifies this`log, this`m, this`at, this`path
      ensures Valid() && Unannounced(m) && m.debits == Settlement(config, Owed()) && at == Ending(carried, h)
      ensures SameBooks(old(m).(debits := m.debits), m) && m.persisted == old(m.persisted)
      ensures old(m.armed) ==> m.armed
    {
      Debit();
    }

    /** `done`, carrying a persisted row, with nothing held left unsurfaced. */
    method AnnounceDone(row: string) returns (exit: Exit)
      requires Valid() && Unannounced(m) && Carries(m.persisted, row) && m.surfaced == m.held
      requires at.Ending? && at.carried == Some(row)
      modifies this`log, this`m, this`at, this`path
      ensures Valid() && SameBooks(old(m), m) && m.persisted == old(m.persisted) && at == Out(exit)
      ensures m.fenced && m.paired && m.quiet && m.truthful && !m.lost && Announced(m)
      ensures exit == (if env.abandons(|old(log)|) then Abandoned else Ended) && !Unbilled(m.last, exit)
    {
      var abandoned := Emit(DoneEvent(row));
      exit := if abandoned then Abandoned else Ended;
    }

    /** The owner fence: true when the lease is reported lost. A failed read, or no fence
        wired, counts as still held. */
    method StoodDown() returns (lost: bool)
      requires Valid() && Running(m) && IsDue(Lease(env.lease(|log|)))
      modifies this`log, this`m, this`at, this`path
      ensures Valid() && m.meter == old(m.meter) && m.calls == old(m.calls) && at == old(After())
      ensures m.held == old(m.held) && m.surfaced == old(m.surfaced)
      ensures log == old(log) + [Lease(env.lease(|old(log)|))] && lost == (env.lease(|old(log)|) == Lost)
      ensures if lost then Halted(m, Superseded) else Running(m) && m.armed && !Unbilled(m.last, Threw)
    {
      var reply := env.lease(|log|);
      Log(Lease(reply));
      lost := reply == Lost;
    }

    method Debit()
      requires Watched() && acc.total.totalTokens == m.meter.metered
      requires Settlement(config, Owed()) != [] ==> IsDue(Debited(Owed()))
      modifies this`log, this`m, this`at, this`path
      ensures Watched() && at == if Settlement(config, Owed()) != [] then old(After()) else old(at)
      ensures m == if Settlement(config, Owed()) == [] then old(m) else Observe(base, old(m), Debited(Owed()))
    {
      var tokens := AddUsage(retrievalUsage, acc.total).totalTokens;
      if config.hasQuota && tokens > 0 {
        Log(Debited(tokens));
      }
    }

    predicate Exhausted(iteration: nat)
      reads this, acc
    {
      iteration >= config.maxToolIterations
      || (config.turnTokenBudget.Some? && acc.total.totalTokens >= config.turnTokenBudget.value)
    }

    /** Something the stream in flight did: it moves the meter and nothing else. */
    method LogStream(e: Effect)
      requires Watched() && (e.CallEnded? || e.CallFaulted? || (e.Emitted? && e.event.TokenEvent?)) && IsDue(e)
      modifies this`log, this`m, this`at, this`path
      ensures Watched() && SameStanding(old(m), m) && m.meter == MeterCall(old(m.meter), e) && at == old(After())
      ensures old(m.quiet && !m.lost) ==> m.quiet
      ensures !Unbilled(m.last, Abandoned) && !Unbilled(m.last, Threw)
    {
      Log(e);
    }

    /** One pull of the stream in flight, its chunk forwarded to the consumer. */
    method Forward() returns (f: Forwarded)
      requires Valid() && m.meter.inFlight && m.meter.honest
      requires at.Calling? && at.script == activeStream.script && at.pulled == activeStream.pulled
      modifies this`log, this`m, this`at, this`path, activeStream, acc
      ensures Valid() && m.meter.honest && activeStream.script == old(activeStream.script) && at == old(After())
      ensures f.More? ==> !env.abandons(|old(log)|) && old(activeStream.pulled) < |activeStream.script.chunks|
      ensures SameStanding(old(m), m)
      ensures old(m.quiet && !m.lost) ==> m.quiet
      ensures f.More? || f.Gone? ==>
        (m.meter.inFlight && activeStream.phase == Suspended && activeStream.pulled == old(activeStream.pulled) + 1)
      ensures f.Over? || f.Broken? ==> !m.meter.inFlight
      ensures m.meter.streamed == if f.More? then old(m.meter.streamed) + f.text
                                  else if f.Gone? then m.meter.streamed else old(m.meter.streamed)
      ensures !Unbilled(m.last, Abandoned) && !Unbilled(m.last, Threw)
      ensures old(activeStream.TextKept()) ==> activeStream.TextKept()
      ensures f.Gone? ==> env.abandons(|old(log)|) && old(activeStream.pulled) < |activeStream.script.chunks|
      ensures f.Over? || f.Broken? ==> activeStream.pulled == old(activeStream.pulled) == |activeStream.script.chunks|
      ensures f.Over? ==> activeStream.script.end.Some? && f.toolCalls == activeStream.script.end.value.toolCalls
      ensures f.Broken? ==> activeStream.script.end.None?
      ensures m.meter.metered == old(m.meter.metered)
              + if f.Over? then activeStream.script.end.value.usage.totalTokens else 0
    {
      var p := activeStream.Next();
      match p
      case Chunk(text) =>
        var abandoned := env.abandons(|log|);
        LogStream(Emitted(TokenEvent(text)));
        f := if abandoned then Gone else More(text);
      case Returned(result) =>
        LogStream(CallEnded(result.usage));
        f := Over(result.toolCalls);
      case Thrown =>
        LogStream(CallFaulted);
        f := Broken;
    }

    /** The stream of a call is opened; nothing has been pulled from it yet. */
    method StartCall() returns (script: Script)
      requires Valid() && Running(m) && WellFormed(base, messages) && NoneHeld(m)
      requires at.Checked? && InStep(at.c) && !CeilingMet(config, at.c.calls, at.c.metered)
      modifies this`log, this`m, this`at, this`path, this`activeStream
      ensures at == Calling(old(at).c.(calls := m.calls), script, 0) && m.meter.prompt == PromptText(messages)
      ensures Valid() && m.meter.inFlight && activeStream != null && fresh(activeStream)
      ensures activeStream.script == script == env.model(|old(log)|)
      ensures activeStream.TextKept() && activeStream.pulled == 0 && m.meter.streamed == ""
      ensures Running(m.(meter := old(m.meter))) && NoneHeld(m) && m.calls == old(m.calls) + 1
      ensures m.meter.honest && m.meter.metered == old(m.meter.metered)
    {
      script := env.model(|log|);
      Log(CallStarted(messages, script));
      activeStream := new MeteredStream(script, PromptText(messages), acc);
    }

    /** Start one model call and stream it to its end. */
    method CallModel() returns (o: CallOutcome, text: string)
      requires Valid() && Running(m) && WellFormed(base, messages) && NoneHeld(m)
      requires at.Checked? && InStep(at.c) && !CeilingMet(config, at.c.calls, at.c.metered)
      modifies this`log, this`m, this`at, this`path, this`activeStream, acc
      ensures match o
        case Answered(toolCalls) =>
          AnswerDue(text, toolCalls)
        case CallThrew => at == Owe(config, Owed(), Threw)
        case CallAbandoned => at == Aborting(EstimateUsage(m.meter.prompt, m.meter.streamed), Owed())
      ensures Valid() && activeStream != null && fresh(activeStream)
      ensures m.calls == old(m.calls) + 1
      ensures match o
        case Answered(_) => Running(m) && NoneHeld(m) && text == m.meter.streamed
        case CallThrew => Halted(m, Threw) && !m.meter.inFlight
        case CallAbandoned => Halted(m, Abandoned) && activeStream.phase == Suspended
    {
      var script := StartCall();
      text := "";
      while true
        invariant Valid() && m.meter.inFlight && fresh(activeStream) && activeStream.script == script
        invariant Running(m.(meter := old(m.meter))) && m.meter.honest && m.calls == old(m.calls) + 1
        invariant text == m.meter.streamed && NoneHeld(m)
        invariant activeStream.TextKept() && m.meter.metered == old(m.meter.metered)
        invariant at == Calling(old(at).c.(calls := m.calls), script, activeStream.pulled)
        invariant m.meter.prompt == PromptText(messages)
        decreases |script.chunks| - activeStream.pulled
      {
        var f := Forward();
        match f
        case More(chunk) => text := text + chunk;
        case Gone => return CallAbandoned, text;
        case Over(toolCalls) =>
          activeStream.WholeText();
          return Answered(toolCalls), text;
        case Broken => return CallThrew, text;
      }
    }

    /** Dispatch one allowed call and record it. The transcript row is written only for a
        success of a tool that is not silent, after a fresh lease check. */
    method RunTool(call: ToolCall, gated: ToolCall) returns (stop: Option<Exit>)
      requires Valid() && Running(m) && m.last == Some(Gated(call, Allow(gated)))
      requires at.Allowed? && at.call == call && at.gated == gated && InStep(at.c)
      modifies this`log, this`m, this`at, this`path, this`messages
      ensures stop.None? ==> at == TurnProtocol.Walk(old(at).c.(ms := messages), old(at).left, old(at).h)
      ensures stop.Some? ==> at == Owe(config, Owed(), stop.value)
      ensures Valid() && m.meter == old(m.meter) && m.calls == old(m.calls)
      ensures m.held == old(m.held) && m.surfaced == old(m.surfaced)
      ensures stop.None? ==> Running(m)
      ensures stop.None? ==>
                var content := env.tool(|old(log)|).content;
                content.Some? && messages == old(messages) + [Tool(content.value, call.id)]
      ensures var reply := env.tool(|old(log)|);
        reply.content.None? || reply.isError || reply.silent ==> log == old(log) + [Dispatched(gated)]
      ensures stop.Some? ==> Halted(m, stop.value)
    {
      var reply := Dispatch(call, gated);
      if reply.content.None? {
        return Some(Threw);
      }
      if reply.isError || reply.silent {
        return None;
      }
      stop := RecordSuccess(reply.summary);
    }

    /** The call itself, and its result in the message log if the after-hook gave one. */
    method Dispatch(call: ToolCall, gated: ToolCall) returns (reply: ToolReply)
      requires Valid() && Running(m) && m.last == Some(Gated(call, Allow(gated)))
      requires at.Allowed? && at.call == call && at.gated == gated && InStep(at.c)
      modifies this`log, this`m, this`at, this`path, this`messages
      ensures Valid() && SameBooks(old(m), m) && at == old(After())
      ensures Running(m) && !Unbilled(m.last, Threw) && log == old(log) + [Dispatched(gated)]
      ensures reply == env.tool(|old(log)|)
      ensures messages == old(messages) + if reply.content.Some? then [Tool(reply.content.value, call.id)] else []
    {
      reply := env.tool(|log|);
      Log(Dispatched(gated));
      if reply.content.Some? {
        messages := messages + [Tool(reply.content.value, call.id)];
      }
    }

    /** A success that shows: its row, after a fresh lease check. */
    method RecordSuccess(summary: Option<string>) returns (stop: Option<Exit>)
      requires Valid() && Running(m) && at.RowDue? && at.summary == summary && OwedAt(at.c) == Owed()
      modifies this`log, this`m, this`at, this`path
      ensures Valid() && m.meter == old(m.meter) && m.calls == old(m.calls)
      ensures m.held == old(m.held) && m.surfaced == old(m.surfaced)
      ensures stop.None? ==> Running(m) && at == TurnProtocol.Walk(old(at).c, old(at).left, old(at).h)
      ensures stop.Some? ==> Halted(m, stop.value) && at == Owe(config, Owed(), stop.value)
    {
      var lost := StoodDown();
      if lost {
        return Some(Superseded);
      }
      if summary.None? {
        return Some(Threw);
      }
      var abandoned := RecordToolStep(summary.value);
      stop := if abandoned then Some(Abandoned) else None;
    }

    /** The row, and the event that carries it if it was really persisted. */
    method RecordToolStep(summary: string) returns (abandoned: bool)
      requires Valid() && Running(m) && m.armed
      requires at.RowCleared? && at.row == summary && OwedAt(at.c) == Owed()
      modifies this`log, this`m, this`at, this`path
      ensures Valid() && SameBooks(old(m), m)
      ensures at == if abandoned then Owe(config, Owed(), Abandoned)
                    else TurnProtocol.Walk(old(at).c, old(at).left, old(at).h)
      ensures Running(m) && !Unbilled(m.last, Abandoned)
    {
      abandoned := false;
      var ok := Persist(ToolStep, summary);
      if ok {
        abandoned := Emit(ToolStepEvent(summary));
      }
    }

    /** The gate's answer for one call; nothing else has happened yet. */
    method AskGate(call: ToolCall) returns (verdict: Verdict)
      requires Valid() && Running(m) && at.Asking? && at.left != [] && at.left[0] == call
      modifies this`log, this`m, this`at, this`path
      ensures Valid() && Running(m) && m.meter == old(m.meter) && m.calls == old(m.calls) && at == old(After())
      ensures m.last == Some(Gated(call, verdict)) && m.surfaced == old(m.surfaced)
      ensures m.held == old(m.held) + HeldBy(Gated(call, verdict))
      ensures verdict == env.gate(|old(log)|) && log == old(log) + [Gated(call, verdict)]
    {
      verdict := env.gate(|log|);
      Log(Gated(call, verdict));
    }

    /** One requested call: held back if the gate blocks it, run now if it allows it. */
    method WalkCall(call: ToolCall) returns (s: CallStep)
      requires Valid() && Running(m) && at.Asking? && at.left != [] && at.left[0] == call && InStep(at.c)
      modifies this`log, this`m, this`at, this`path, this`messages
      ensures match s
        case HeldBack(proposal, why) =>
          at == TurnProtocol.Walk(old(at).c, old(at).left[1..], HoldBack(old(at).h, proposal, why))
        case RanTool => at == TurnProtocol.Walk(old(at).c.(ms := messages), old(at).left[1..], old(at).h)
        case StoppedAt(exit) => at == Owe(config, Owed(), exit)
      ensures Valid() && m.meter == old(m.meter) && m.calls == old(m.calls)
      ensures s.HeldBack? ==>
                && Running(m) && messages == old(messages) && m.surfaced == old(m.surfaced)
                && m.held == old(m.held) + (if s.proposal.Some? then [s.proposal.value] else [])
      ensures s.RanTool? ==>
                && Running(m) && m.held == old(m.held) && m.surfaced == old(m.surfaced)
                && exists content :: messages == old(messages) + [Tool(content, call.id)]
      ensures s.StoppedAt? ==> Halted(m, s.exit)
      ensures var verdict := env.gate(|old(log)|);
        verdict.Block? ==> s == HeldBack(verdict.proposal, verdict.reason)
    {
      var verdict := AskGate(call);
      match verdict
      case GateThrows =>
        s := StoppedAt(Threw);
      case Block(proposal, reason) =>
        s := HeldBack(proposal, reason);
      case Allow(gated) =>
        var stop := RunTool(call, gated);
        s := if stop.Some? then StoppedAt(stop.value) else RanTool;
    }

    /** Walk every requested call: blocked ones are held, the others run now. */
    method WalkTools(calls: seq<ToolCall>) returns (w: Walk, ghost results: seq<Message>)
      requires Valid() && Running(m) && NoneHeld(m)
      requires calls != [] && at.Asking? && at.left == calls && at.h == NOTHING_HELD && InStep(at.c)
      modifies this`log, this`m, this`at, this`path, this`messages
      ensures match w
        case Walked(blocked, held, reason) =>
          at == TurnProtocol.Walk(old(at).c.(ms := messages), [], Hold(blocked, held, reason))
        case Stopped(exit) => at == Owe(config, Owed(), exit)
      ensures Valid() && m.meter == old(m.meter) && m.calls == old(m.calls)
      ensures w.Walked? ==> Running(m) && w.held == m.held && m.surfaced == []
      ensures w.Walked? && !w.blocked ==> w.held == []
      ensures w.Walked? && !w.blocked ==> messages == old(messages) + results && Answers(calls, results)
      ensures w.Stopped? ==> Halted(m, w.exit)
    {
      var blocked, held, reason := false, [], "";
      results := [];
      for i := 0 to |calls|
        invariant Valid() && Running(m) && m.meter == old(m.meter) && m.calls == old(m.calls)
        invariant messages == old(messages) + results
        invariant at == TurnProtocol.Walk(old(at).c.(ms := messages), calls[i..], Hold(blocked, held, reason))
        invariant held == m.held && m.surfaced == [] && (!blocked ==> held == [])
        invariant !blocked ==> Answers(calls[..i], results)
      {
        var s := WalkCall(calls[i]);
        match s
        case StoppedAt(exit) =>
          return Stopped(exit), results;
        case HeldBack(proposal, why) =>
          blocked := true;
          if proposal.Some? {
            held := held + [proposal.value];
          } else if reason == "" {
            reason := why;
          }
        case RanTool =>
          results := results + [messages[|messages| - 1]];
      }
      assert calls[..|calls|] == calls;
      w := Walked(blocked, held, reason);
    }

    /** The assistant message that asks for the calls, then the calls. */
    method AskTools(turnText: string, calls: seq<ToolCall>) returns (w: Walk)
      requires Valid() && Running(m) && WellFormed(base, messages) && calls != [] && NoneHeld(m)
      requires AnswerDue(turnText, calls)
      modifies this`log, this`m, this`at, this`path, this`messages
      ensures match w
        case Walked(blocked, held, reason) =>
          at == TurnProtocol.Walk(old(at).c.(ms := messages), [], Hold(blocked, held, reason))
        case Stopped(exit) => at == Owe(config, Owed(), exit)
      ensures Valid() && m.meter == old(m.meter) && m.calls == old(m.calls)
      ensures w.Walked? ==> Running(m) && w.held == m.held && m.surfaced == []
      ensures w.Walked? && !w.blocked ==> WellFormed(base, messages) && w.held == []
      ensures w.Stopped? ==> Halted(m, w.exit)
    {
      ghost var before := messages;
      messages := messages + [Assistant(turnText, calls)];
      ghost var results;
      w, results := WalkTools(calls);
      if w.Walked? && !w.blocked {
        WellFormedGrows(base, before, Assistant(turnText, calls), results);
        assert messages == before + ([Assistant(turnText, calls)] + results);
      }
    }

    /** Persist the reply, settle, and emit `done`. */
    method Finish(text: string) returns (exit: Exit)
      requires Valid() && Running(m) && m.armed && InItsOwnWords(Reply, text, m.meter.streamed) && NoneHeld(m)
      requires (at.Checked? || at.Cleared?) && InStep(at.c) && IsDue(Wrote(Reply, text, env.write(|log|)))
      modifies this`log, this`m, this`at, this`path
      ensures Valid() && m.meter == old(m.meter) && m.calls == old(m.calls) && at == Out(exit)
      ensures Concluded(m, exit, Settlement(config, Owed()))
    {
      var ok := Persist(Reply, text);
      if !ok {
        return Threw;
      }
      assert Carries(m.persisted, text) by {
        assert Row(Reply, text) in m.persisted;
      }
      Settle(Some(text), NOTHING_HELD);
      exit := AnnounceDone(text);
    }

    /** One held action: its row, if it can be written, and its event. */
    method Surface(p: Proposal) returns (ok: bool, abandoned: bool)
      requires Valid() && Running(m) && m.armed
      requires at.Surfacing? && at.actions != [] && at.actions[0] == p && at.owed == Owed()
      modifies this`log, this`m, this`at, this`path
      ensures at == if abandoned then Out(Abandoned)
                    else TurnProtocol.Surface(config, Owed(), old(at).actions[1..], old(at).preamble,
                                              if ok then Some(p.summary) else old(at).lastRow, old(at).h)
      ensures Valid() && Running(m) && m.armed && m.surfaced == old(m.surfaced) + [p]
      ensures SameBooks(old(m).(surfaced := m.surfaced), m)
      ensures m.persisted == if ok then old(m.persisted) + {Row(ProposalRow, p.summary)} else old(m.persisted)
      ensures Unbilled(m.last, Abandoned)
    {
      ok := Persist(ProposalRow, p.summary);
      abandoned := Emit(ProposalEvent(p));
    }

    /** Persist one row per held action and surface each proposal. */
    method HoldProposals(held: seq<Proposal>, ghost preamble: Option<string>, ghost h: Hold)
      returns (abandoned: bool, lastRow: Option<string>)
      requires Valid() && Running(m) && m.armed && held == m.held && m.surfaced == []
      requires at == TurnProtocol.Surface(config, Owed(), held, preamble, None, h)
      modifies this`log, this`m, this`at, this`path
      ensures at == if abandoned then Out(Abandoned)
                    else TurnProtocol.Settle(config, Owed(), if preamble.Some? then preamble else lastRow, h)
      ensures Valid() && m.meter == old(m.meter) && m.calls == old(m.calls)
      ensures Running(m) && m.armed
      ensures abandoned ==> Unbilled(m.last, Abandoned)
      ensures m.held == held && (!abandoned ==> m.surfaced == held)
      ensures old(m.persisted) <= m.persisted && (lastRow.Some? ==> Row(ProposalRow, lastRow.value) in m.persisted)
    {
      abandoned, lastRow := false, None;
      for i := 0 to |held|
        invariant Valid() && m.meter == old(m.meter) && m.calls == old(m.calls)
        invariant Running(m) && m.armed && !abandoned
        invariant m.held == held && m.surfaced == held[..i]
        invariant at == TurnProtocol.Surface(config, Owed(), held[i..], preamble, lastRow, h)
        invariant old(m.persisted) <= m.persisted
        invariant lastRow.Some? ==> Row(ProposalRow, lastRow.value) in m.persisted
      {
        var ok, left := Surface(held[i]);
        if ok {
          lastRow := Some(held[i].summary);
        }
        assert held[..i + 1] == held[..i] + [held[i]] && held[i..][1..] == held[i + 1..];
        if left {
          return true, lastRow;
        }
      }
    }

    method AnnounceError() returns (exit: Exit)
      requires Valid() && Unannounced(m) && at.Mute?
      modifies this`log, this`m, this`at, this`path
      ensures Valid() && SameBooks(old(m), m) && at == Out(exit)
      ensures m.fenced && m.paired && m.quiet && m.truthful && !m.lost && Announced(m)
      ensures (exit == Ended || exit == Abandoned) && !Unbilled(m.last, exit)
    {
      var abandoned := Emit(ErrorEvent);
      exit := if abandoned then Abandoned else Ended;
    }

    /** A held turn always ends with a terminal event, carried by the last row that was
        really persisted; when none was, by one more row; when that fails too, an error. */
    method Conclude(row: Option<string>, held: seq<Proposal>, reason: string) returns (exit: Exit)
      requires Valid() && Unannounced(m) && m.surfaced == m.held
      requires if row.Some? then Carries(m.persisted, row.value) else m.armed
      requires at.Ending? && at.carried == row && at.h.held == held && at.h.reason == reason
      modifies this`log, this`m, this`at, this`path
      ensures Valid() && SameBooks(old(m), m) && at == Out(exit)
      ensures m.fenced && m.paired && m.quiet && m.truthful && !m.lost
      ensures exit == Ended || exit == Abandoned
      ensures Announced(m) && !Unbilled(m.last, exit)
    {
      var done := row;
      if done.None? {
        var fallback := Or(reason, Or(if held == [] then "" else held[0].summary, HELD_TURN_FALLBACK));
        var ok := Persist(Terminal, fallback);
        if !ok {
          exit := AnnounceError();
          return;
        }
        assert Row(Terminal, fallback) in m.persisted;
        done := Some(fallback);
      }
      exit := AnnounceDone(done.value);
    }

    /** Exit for approval: the pre-amble, one row and one event per held action, the
        settlement, and the terminal event. */
    method FinishBlocked(turnText: string, held: seq<Proposal>, reason: string) returns (exit: Exit)
      requires Valid() && Running(m) && m.armed && turnText == m.meter.streamed && held == m.held && m.surfaced == []
      requires var h := Hold(true, held, reason);
        at == if Blank(turnText) then TurnProtocol.Surface(config, Owed(), held, None, None, h)
              else Holding(turnText, Owed(), h)
      modifies this`log, this`m, this`at, this`path
      ensures Valid() && m.meter == old(m.meter) && m.calls == old(m.calls) && at == Out(exit)
      ensures Concluded(m, exit, Settlement(config, Owed()))
    {
      var preamble: Option<string> := None;
      if !Blank(turnText) {
        var ok := Persist(Preamble, turnText);
        if !ok {
          return Threw;
        }
        assert Row(Preamble, turnText) in m.persisted;
        preamble := Some(turnText);
      }
      var abandoned, lastRow := HoldProposals(held, preamble, Hold(true, held, reason));
      if abandoned {
        return Abandoned;
      }
      var row := if preamble.Some? then preamble else lastRow;
      Settle(row, Hold(true, held, reason));
      exit := Conclude(row, held, reason);
    }

    /** What follows an answered call: no tool calls means this is the reply; otherwise run
        the tools, and either hold the turn for approval or go round again (None). */
    method AnswerTurn(turnText: string, toolCalls: seq<ToolCall>) returns (exit: Option<Exit>)
      requires Valid() && Running(m) && WellFormed(base, messages) && !settledNormally
      requires turnText == m.meter.streamed && NoneHeld(m)
      requires AnswerDue(turnText, toolCalls)
      modifies this`log, this`m, this`at, this`path, this`messages, this`settledNormally
      ensures exit.None? ==> at.Top? && InStep(at.c) && at.c.said == turnText
      ensures exit.Some? ==> at == if settledNormally then Out(exit.value) else Owe(config, Owed(), exit.value)
      ensures Valid() && m.meter == old(m.meter) && m.calls == old(m.calls)
      ensures exit.None? ==> Running(m) && WellFormed(base, messages) && !settledNormally && NoneHeld(m)
      ensures exit.Some? && settledNormally ==> Concluded(m, exit.value, Settlement(config, Owed()))
      ensures exit.Some? && !settledNormally ==> Halted(m, exit.value)
    {
      if toolCalls == [] {
        var e := ReplyTurn(turnText);
        return Some(e);
      }
      var w := AskTools(turnText, toolCalls);
      match w
      case Stopped(stop) =>
        return Some(stop);
      case Walked(blocked, held, reason) =>
        if blocked {
          var e := HoldTurn(turnText, held, reason);
          return Some(e);
        }
        exit := None;
    }

    /** The reply, if the room is still held. */
    method ReplyTurn(turnText: string) returns (exit: Exit)
      requires Valid() && Running(m) && !settledNormally && turnText == m.meter.streamed && NoneHeld(m)
      requires at.Spoken? && InStep(at.c) && at.c.said == turnText
      modifies this`log, this`m, this`at, this`path, this`settledNormally
      ensures Valid() && m.meter == old(m.meter) && m.calls == old(m.calls)
      ensures at == if settledNormally then Out(exit) else Owe(config, Owed(), exit)
      ensures if settledNormally then Concluded(m, exit, Settlement(config, Owed())) else Halted(m, exit)
    {
      var lost := StoodDown();
      if lost {
        return Superseded;
      }
      settledNormally := true;
      exit := Finish(turnText);
    }

    /** The held actions, if the room is still held. */
    method HoldTurn(turnText: string, held: seq<Proposal>, reason: string) returns (exit: Exit)
      requires Valid() && Running(m) && !settledNormally && turnText == m.meter.streamed
      requires held == m.held && m.surfaced == []
      requires at.Blocked? && OwedAt(at.c) == Owed() && at.c.said == turnText && at.h == Hold(true, held, reason)
      modifies this`log, this`m, this`at, this`path, this`settledNormally
      ensures Valid() && m.meter == old(m.meter) && m.calls == old(m.calls)
      ensures at == if settledNormally then Out(exit) else Owe(config, Owed(), exit)
      ensures if settledNormally then Concluded(m, exit, Settlement(config, Owed())) else Halted(m, exit)
    {
      var lost := StoodDown();
      if lost {
        return Superseded;
      }
      settledNormally := true;
      exit := FinishBlocked(turnText, held, reason);
    }

    /** Where a run that takes this exit stands before its abnormal settlement, if it needs one. */
    ghost predicate Stands(exit: Exit)
      reads this
    {
      at == if settledNormally then Out(exit)
            else if m.meter.inFlight then Aborting(EstimateUsage(m.meter.prompt, m.meter.streamed), Owed())
            else Owe(config, Owed(), exit)
    }

    /** One model call and what follows it: None to go round again. */
    method Iterate() returns (exit: Option<Exit>)
      requires Valid() && Running(m) && WellFormed(base, messages) && !settledNormally && NoneHeld(m)
      requires at.Checked? && InStep(at.c) && !CeilingMet(config, at.c.calls, at.c.metered)
      modifies this, acc
      ensures exit.None? ==> at.Top? && InStep(at.c) && at.c.said == lastText
      ensures exit.Some? ==> Stands(exit.value)
      ensures Valid() && activeStream != null && fresh(activeStream) && m.calls == old(m.calls) + 1
      ensures exit.None? ==>
                && Running(m) && WellFormed(base, messages) && !settledNormally && NoneHeld(m)
                && lastText == m.meter.streamed && activeStream.phase == Finished
      ensures exit.Some? && settledNormally ==> Concluded(m, exit.value, Settlement(config, Owed()))
      ensures exit.Some? && !settledNormally ==>
                Halted(m, exit.value) && (m.meter.inFlight ==> activeStream.phase == Suspended)
    {
      var o, turnText := CallModel();
      match o
      case CallThrew =>
        exit := Some(Threw);
      case CallAbandoned =>
        exit := Some(Abandoned);
      case Answered(toolCalls) =>
        lastText := turnText;
        exit := AnswerTurn(turnText, toolCalls);
    }

    /** The loop itself: fence, ceiling, one model call, then the reply or the tools. */
    method Loop() returns (exit: Exit)
      requires Valid() && Running(m) && m.calls == 0
      requires WellFormed(base, messages) && activeStream == null && !settledNormally
      requires lastText == m.meter.streamed && NoneHeld(m)
      requires at.Top? && InStep(at.c) && at.c.said == lastText
      modifies this, acc
      ensures Stands(exit)
      ensures Valid() && (activeStream != null ==> fresh(activeStream))
      ensures m.calls <= config.maxToolIterations
      ensures settledNormally ==> Concluded(m, exit, Settlement(config, Owed()))
      ensures !settledNormally ==> Halted(m, exit) && (m.meter.inFlight ==> activeStream.phase == Suspended)
    {
      var iteration := 0;
      while true
        invariant Valid() && Running(m) && m.calls == iteration <= config.maxToolIterations
        invariant at.Top? && InStep(at.c) && at.c.said == lastText
        invariant WellFormed(base, messages) && !settledNormally && lastText == m.meter.streamed && NoneHeld(m)
        invariant activeStream != null ==> fresh(activeStream) && activeStream.phase == Finished
        decreases config.maxToolIterations - iteration
      {
        var lost := StoodDown();
        if lost {
          return Superseded;
        }
        if Exhausted(iteration) {
          settledNormally := true;
          exit := Finish(Or(lastText, PARTIAL_FALLBACK));
          return;
        }
        var e := Iterate();
        if e.Some? {
          return e.value;
        }
        iteration := iteration + 1;
      }
    }

    /** The run with its `finally`: an exit that settled nothing on the way out forwards the
        end into the stream in flight and then settles what was metered. */
    method RunLoop() returns (exit: Exit)
      requires Valid() && Running(m) && m.calls == 0
      requires WellFormed(base, messages) && activeStream == null && !settledNormally
      requires lastText == m.meter.streamed && NoneHeld(m)
      requires at == Start(base, citations, retrievalUsage.totalTokens) && InStep(at.c) && lastText == ""
      modifies this, acc
      ensures at == Out(exit)
      ensures Valid() && m.calls <= config.maxToolIterations
      ensures Concluded(m, exit, Settlement(config, Owed()))
    {
      if citations {
        var abandoned := Cite();
        if abandoned {
          return Abandoned;
        }
      }
      exit := Loop();
      if !settledNormally {
        SettleAbnormal(exit);
      }
    }

    /** The sources, before anything else: a consumer that leaves here is never billed. */
    method Cite() returns (abandoned: bool)
      requires Valid() && Running(m) && NoneHeld(m) && at.Sources?
      modifies this`log, this`m, this`at, this`path
      ensures at == if abandoned then Out(Abandoned) else Top(old(at).c)
      ensures Valid() && m.meter == old(m.meter) && m.calls == old(m.calls)
      ensures Running(m) && NoneHeld(m) && Unbilled(m.last, Abandoned)
    {
      abandoned := Emit(CitationsEvent);
    }

    method SettleAbnormal(exit: Exit)
      requires Valid() && Halted(m, exit) && (m.meter.inFlight ==> activeStream.phase == Suspended)
      requires !settledNormally && Stands(exit)
      modifies this`log, this`m, this`at, this`path, activeStream, acc
      ensures Valid() && m.calls == old(m.calls) && at == Out(exit)
      ensures Concluded(m, exit, Settlement(config, Owed()))
    {
      DropStream(exit);
      Debit();
    }

    /** Forward the end into the stream in flight: it deposits its estimate. */
    method DropStream(exit: Exit)
      requires Valid() && Halted(m, exit) && (m.meter.inFlight ==> activeStream.phase == Suspended)
      requires !settledNormally && Stands(exit)
      modifies this`log, this`m, this`at, this`path, activeStream, acc
      ensures Valid() && m.calls == old(m.calls) && Halted(m, exit) && !m.meter.inFlight
      ensures at == Owe(config, Owed(), exit)
    {
      if activeStream != null {
        var deposit := activeStream.Return();
        if deposit.Some? {
          Log(CallAborted(deposit.value));
        }
      }
    }

    /** After the loop: an error that propagated becomes the terminal `error` event, and only
        a turn that ended launches the post-turn reads. */
    method Close(exit: Exit, perceives: bool)
      requires Monitored() && m.quiet && m.fenced && m.paired && m.truthful && (exit == Superseded <==> m.lost)
      requires (exit == Ended ==> Announced(m)) && (exit == Threw ==> m.finals == 0)
      modifies this`log, this`m
      ensures Monitored() && log == old(log) + Closing(exit, perceives)
      ensures m.debits == old(m.debits) && m.meter == old(m.meter) && m.fenced && m.paired && m.quiet && m.truthful
      ensures exit == Ended || exit == Threw ==> Announced(m)
    {
      if exit == Threw {
        Append(Emitted(ErrorEvent));
      } else if exit == Ended && perceives {
        Append(Perceived);
      }
    }

    /** The loop and what follows it; `done` is the monitor's reading in between. */
    method Run(perceives: bool) returns (exit: Exit, loopEnd: nat, ghost done: Monitor)
      requires Valid() && Untouched(m) && WellFormed(base, messages)
      requires activeStream == null && !settledNormally && lastText == "" && log == entry && messages == base
      requires at == start == Start(base, citations, retrievalUsage.totalTokens)
      modifies this, acc
      ensures Monitored() && |entry| <= loopEnd <= |log| && log[loopEnd..] == Closing(exit, perceives) && entry <= log
      ensures IsPath(env, config, path, log[..loopEnd], |entry|) && path[0] == start && path[|path| - 1] == Out(exit)
      ensures done == Watch(base, log[..loopEnd]) && done.calls <= config.maxToolIterations
      ensures Concluded(done, exit, Settlement(config, retrievalUsage.totalTokens + done.meter.metered))
      ensures m.debits == done.debits && m.meter == done.meter && m.fenced && m.paired && m.quiet && m.truthful
      ensures exit == Ended || exit == Threw ==> Announced(m)
    {
      exit := RunLoop();
      ReadLog();
      ghost var logged := log;
      done, loopEnd := m, |log|;
      Close(exit, perceives);
      assert log[..loopEnd] == logged;
    }
  }

  function Closing(exit: Exit, perceives: bool): seq<Effect> {
    if exit == Threw then [Emitted(ErrorEvent)] else if exit == Ended && perceives then [Perceived] else []
  }

  /** One whole turn that reached the loop: the context it started from, its effects, how
      the loop ended and after how many effects. */
  datatype Turn = Turn(base: seq<Message>, log: seq<Effect>, exit: Exit, loopEnd: nat, retrieval: int,
                       citations: bool, entered: nat)

  function StartOf(t: Turn): Place {
    Start(t.base, t.citations, t.retrieval)
  }

  /** Its effects, from the entry to the end of the loop, are exactly those the protocol calls for
      along this path, which starts where the turn does and ends where it is out. */
  predicate Played(env: Environment, config: Config, t: Turn, path: seq<Place>) {
    && t.entered <= t.loopEnd <= |t.log| && IsPath(env, config, path, t.log[..t.loopEnd], t.entered)
    && path[0] == StartOf(t) && path[|path| - 1] == Out(t.exit)
  }

  ghost function AtLoopEnd(t: Turn): Monitor
    requires t.loopEnd <= |t.log|
  {
    Watch(t.base, t.log[..t.loopEnd])
  }

  ghost function AtEnd(t: Turn): Monitor {
    Watch(t.base, t.log)
  }

  /** Everything the harness promises about such a turn. */
  ghost predicate TurnKept(t: Turn, config: Config, perceives: bool) {
    && t.loopEnd <= |t.log|
    && t.log[t.loopEnd..] == Closing(t.exit, perceives)
    && Concluded(AtLoopEnd(t), t.exit, Settlement(config, t.retrieval + AtLoopEnd(t).meter.metered))
    && AtLoopEnd(t).calls <= config.maxToolIterations
    && AtEnd(t).debits == AtLoopEnd(t).debits
    && AtEnd(t).fenced && AtEnd(t).paired && AtEnd(t).quiet && AtEnd(t).truthful
    && AtEnd(t).meter == AtLoopEnd(t).meter
    && (t.exit == Ended || t.exit == Threw ==> Announced(AtEnd(t)))
  }

  lemma TurnIsKept(t: Turn, done: Monitor, end: Monitor, config: Config, perceives: bool)
    requires t.loopEnd <= |t.log| && done == AtLoopEnd(t) && end == AtEnd(t)
    requires t.log[t.loopEnd..] == Closing(t.exit, perceives)
    requires Concluded(done, t.exit, Settlement(config, t.retrieval + done.meter.metered))
    requires done.calls <= config.maxToolIterations
    requires end.debits == done.debits && end.meter == done.meter
    requires end.fenced && end.paired && end.quiet && end.truthful
    requires t.exit == Ended || t.exit == Threw ==> Announced(end)
    ensures TurnKept(t, config, perceives)
  {
  }

  lemma NothingAdded(base: seq<Message>)
    ensures WellFormed(base, base)
  {
    assert base[|base|..] == [];
  }

  /** The loop over a prepared context, and what follows it. */
  method Converse(env: Environment, config: Config, prep: Prep, entry: seq<Effect>, perceives: bool)
    returns (t: Turn, ghost path: seq<Place>)
    requires Untouched(Watch(prep.messages, entry))
    ensures TurnKept(t, config, perceives) && Played(env, config, t, path)
    ensures entry <= t.log && t.entered == |entry| && t.citations == prep.citations
    ensures t.base == prep.messages && t.retrieval == prep.retrievalUsage.totalTokens
  {
    var loop := new AgentLoop(env, config, prep, entry);
    NothingAdded(prep.messages);
    var exit, loopEnd, done := loop.Run(perceives);
    ghost var end;
    t, path, end := Record(loop, exit, loopEnd);
    assert done == AtLoopEnd(t);
    TurnIsKept(t, done, end, config, perceives);
  }

  /** The turn, as the finished loop leaves it. */
  method Record(loop: AgentLoop, exit: Exit, loopEnd: nat) returns (t: Turn, ghost path: seq<Place>, ghost end: Monitor)
    requires loop.Monitored() && |loop.entry| <= loopEnd <= |loop.log|
    requires loop.start == Start(loop.base, loop.citations, loop.retrievalUsage.totalTokens)
    requires IsPath(loop.env, loop.config, loop.path, loop.log[..loopEnd], |loop.entry|)
    requires loop.path[0] == loop.start && loop.path[|loop.path| - 1] == Out(exit)
    ensures Played(loop.env, loop.config, t, path)
    ensures t == Turn(loop.base, loop.log, exit, loopEnd, loop.retrievalUsage.totalTokens, loop.citations, |loop.entry|)
    ensures path == loop.path && end == loop.m == AtEnd(t)
  {
    loop.ReadMonitor();
    t := Turn(loop.base, loop.log, exit, loopEnd, loop.retrievalUsage.totalTokens, loop.citations, |loop.entry|);
    path, end := loop.path, loop.m;
  }

  /** The turn starts from this preparation. */
  predicate Prepares(t: Turn, prep: Prep) {
    t.base == prep.messages && t.citations == prep.citations && t.retrieval == prep.retrievalUsage.totalTokens
  }

  datatype Outcome =
    | Failed(log: seq<Effect>)
    | Reached(turn: Turn)

  lemma EntryIsSilent(base: seq<Message>, entry: seq<Effect>)
    requires forall i :: 0 <= i < |entry| ==> entry[i].Entered? || entry[i].Prepared?
    ensures Untouched(Watch(base, entry))
  {
    if entry != [] {
      EntryIsSilent(base, entry[..|entry| - 1]);
    }
  }

  /** A failure before the loop is announced like any other and settles nothing. */
  lemma FailureIsAnnounced(entry: seq<Effect>)
    requires forall i :: 0 <= i < |entry| ==> entry[i].Entered? || entry[i].Prepared?
    ensures Announced(Watch([], entry + [Emitted(ErrorEvent)]))
    ensures Watch([], entry + [Emitted(ErrorEvent)]).debits == []
  {
    EntryIsSilent([], entry);
    WatchSnoc([], entry, Emitted(ErrorEvent));
  }

  /** A user's turn: the message is persisted, the context prepared, the loop run. The
      result says whether the caller was superseded. */
  method RunTurn(env: Environment, config: Config)
    returns (o: Outcome, superseded: bool, ghost path: seq<Place>)
    ensures o.Reached? <==> env.entered(0) && env.prepared(1).Some?
    ensures o.Reached? ==>
              && TurnKept(o.turn, config, true) && Played(env, config, o.turn, path)
              && [Entered(true), Prepared(true)] <= o.turn.log && o.turn.entered == 2
              && Prepares(o.turn, env.prepared(1).value)
    ensures o.Failed? ==> Announced(Watch([], o.log)) && Watch([], o.log).debits == []
    ensures superseded <==> o.Reached? && o.turn.exit == Superseded
  {
    var entered := env.entered(0);
    var log := [Entered(entered)];
    if !entered {
      FailureIsAnnounced(log);
      return Failed(log + [Emitted(ErrorEvent)]), false, [];
    }
    var prep := env.prepared(1);
    log := log + [Prepared(prep.Some?)];
    if prep.None? {
      FailureIsAnnounced(log);
      return Failed(log + [Emitted(ErrorEvent)]), false, [];
    }
    EntryIsSilent(prep.value.messages, log);
    var t, steps := Converse(env, config, prep.value, log, true);
    o, superseded, path := Reached(t), t.exit == Superseded, steps;
  }

  /** Resume after an approved action: no message is persisted, a note tells the model the
      action completed, and no post-turn reads follow. */
  method ContinueAfterApproval(env: Environment, config: Config, note: string)
    returns (o: Outcome, superseded: bool, ghost path: seq<Place>)
    ensures o.Reached? <==> env.prepared(0).Some?
    ensures o.Reached? ==>
              && TurnKept(o.turn, config, false) && Played(env, config, o.turn, path)
              && [Prepared(true)] <= o.turn.log && o.turn.entered == 1
              && Prepares(o.turn, env.prepared(0).value.(messages := env.prepared(0).value.messages + [Context(note)]))
    ensures o.Failed? ==> Announced(Watch([], o.log)) && Watch([], o.log).debits == []
    ensures superseded <==> o.Reached? && o.turn.exit == Superseded
  {
    var prep := env.prepared(0);
    var log := [Prepared(prep.Some?)];
    if prep.None? {
      FailureIsAnnounced(log);
      return Failed(log + [Emitted(ErrorEvent)]), false, [];
    }
    var resumed := prep.value.(messages := prep.value.messages + [Context(note)]);
    EntryIsSilent(resumed.messages, log);
    var t, steps := Converse(env, config, resumed, log, false);
    o, superseded, path := Reached(t), t.exit == Superseded, steps;
  }
}
