/** What a turn does to the world, as a log of effects in order, and the monitor that reads
    off the log everything the harness promises about it. */
module TurnLog {
  import opened Wrappers
  import opened Usage

  datatype Message =
    | Context(content: string)
    | Assistant(content: string, toolCalls: seq<ToolCall>)
    | Tool(content: string, toolCallId: Option<string>)

  /** The reply of one lease check; `NotWired` when no fence was supplied. */
  datatype LeaseReply = Held | Lost | ReadFailed | NotWired

  /** A proposed action, and the gate's answer to one requested tool call. */
  datatype Proposal = Proposal(id: string, summary: string)

  datatype Verdict =
    | Allow(call: ToolCall)
    | Block(proposal: Option<Proposal>, reason: string)
    | GateThrows

  datatype RowKind = Reply | ToolStep | Preamble | ProposalRow | Terminal

  /** A transcript row that was really persisted. */
  datatype Row = Row(kind: RowKind, text: string)

  datatype ChatEvent =
    | CitationsEvent
    | TokenEvent(text: string)
    | ToolStepEvent(row: string)
    | ProposalEvent(proposal: Proposal)
    | DoneEvent(row: string)
    | ErrorEvent

  datatype Effect =
    | Entered(ok: bool)
    | Prepared(ok: bool)
    | Lease(reply: LeaseReply)
    | CallStarted(messages: seq<Message>, script: Script)
    | CallEnded(usage: TokenUsage)
    | CallFaulted
    | CallAborted(estimate: TokenUsage)
    | Gated(call: ToolCall, verdict: Verdict)
    | Dispatched(call: ToolCall)
    | Wrote(kind: RowKind, text: string, ok: bool)
    | Emitted(event: ChatEvent)
    | Debited(tokens: int)
    | Perceived

  predicate Final(e: ChatEvent) {
    e.DoneEvent? || e.ErrorEvent?
  }

  /** The tool results of one assistant turn: one per call, in call order. */
  predicate Answers(calls: seq<ToolCall>, results: seq<Message>) {
    |results| == |calls| && forall k :: 0 <= k < |calls| ==> results[k].Tool? && results[k].toolCallId == calls[k].id
  }

  /** Assistant turns, each followed by exactly the results of the calls it made. */
  predicate Paired(ms: seq<Message>)
    decreases |ms|
  {
    ms == [] ||
    (ms[0].Assistant? && |ms[0].toolCalls| < |ms|
     && Answers(ms[0].toolCalls, ms[1..1 + |ms[0].toolCalls|])
     && Paired(ms[1 + |ms[0].toolCalls|..]))
  }

  predicate WellFormed(base: seq<Message>, ms: seq<Message>) {
    base <= ms && Paired(ms[|base|..])
  }

  lemma {:induction false} PairedGrows(ms: seq<Message>, turn: Message, results: seq<Message>)
    requires Paired(ms) && turn.Assistant? && Answers(turn.toolCalls, results)
    ensures Paired(ms + ([turn] + results))
    decreases |ms|
  {
    var group := [turn] + results;
    if ms == [] {
      assert ms + group == group;
      assert group[1..1 + |turn.toolCalls|] == results;
      assert group[1 + |turn.toolCalls|..] == [];
    } else {
      var n := 1 + |ms[0].toolCalls|;
      PairedGrows(ms[n..], turn, results);
      assert (ms + group)[1..n] == ms[1..n];
      assert (ms + group)[n..] == ms[n..] + group;
    }
  }

  lemma WellFormedGrows(base: seq<Message>, ms: seq<Message>, turn: Message, results: seq<Message>)
    requires WellFormed(base, ms) && turn.Assistant? && Answers(turn.toolCalls, results)
    ensures WellFormed(base, ms + ([turn] + results))
  {
    PairedGrows(ms[|base|..], turn, results);
    assert (ms + ([turn] + results))[|base|..] == ms[|base|..] + ([turn] + results);
  }

  function PromptText(ms: seq<Message>): string {
    if ms == [] then "" else if |ms| == 1 then ms[0].content else ms[0].content + "\n" + PromptText(ms[1..])
  }

  /** The metering of model calls, read off the log. `honest` means that calls do not
      overlap, each is resolved at most once, and each resolution is the right one: the
      usage the provider reported, a fault only where the provider broke, or the estimate
      for exactly the prompt sent and the text forwarded. */
  datatype Meter = Meter(
    metered: int,
    inFlight: bool,
    honest: bool,
    prompt: string,
    script: Script,
    streamed: string)

  function MeterCall(m: Meter, e: Effect): Meter {
    match e
    case CallStarted(ms, script) =>
      Meter(m.metered, true, m.honest && !m.inFlight, PromptText(ms), script, "")
    case CallEnded(u) =>
      m.(metered := m.metered + u.totalTokens, inFlight := false,
      honest := m.honest && m.inFlight && m.script.end.Some? && u == m.script.end.value.usage)
    case CallFaulted =>
      m.(inFlight := false, honest := m.honest && m.inFlight && m.script.end.None?)
    case CallAborted(u) =>
      m.(metered := m.metered + u.totalTokens, inFlight := false,
      honest := m.honest && m.inFlight && u == EstimateUsage(m.prompt, m.streamed))
    case Emitted(TokenEvent(text)) =>
      m.(streamed := m.streamed + text)
    case _ => m
  }

  /** Running totals over a log: the meter; whether the last thing that can take seconds
      (a model call, a tool) was followed by a lease check that did not report loss, and
      whether every row so far was written under such a check; model calls; wallet debits;
      whether every call saw a well-formed message log; terminal events and the last event;
      whether loss was reported, and whether only a debit followed; the rows persisted; the
      proposals held since the last model call and those surfaced; whether what
      was run, written and announced was true to the gate, to the model's words, to those rows
      and to those proposals; and the last effect. */
  datatype Monitor = Monitor(
    meter: Meter,
    armed: bool,
    fenced: bool,
    calls: nat,
    debits: seq<int>,
    paired: bool,
    finals: nat,
    lastEvent: Option<ChatEvent>,
    lost: bool,
    quiet: bool,
    persisted: set<Row>,
    held: seq<Proposal>,
    surfaced: seq<Proposal>,
    truthful: bool,
    last: Option<Effect>)

  const NO_CALL := Meter(0, false, true, "", Script([], None), "")

  const FRESH := Monitor(NO_CALL, false, true, 0, [], true, 0, None, false, true, {}, [], [], true, None)

  const PARTIAL_FALLBACK :=
    "I ran out of room to finish that just now — tell me how you’d like me to continue."

  /** A reply is what the model streamed last, or the fallback when it streamed nothing; a
      pre-amble is exactly what it streamed. */
  predicate InItsOwnWords(kind: RowKind, text: string, streamed: string) {
    match kind
    case Reply => text == streamed || (streamed == "" && text == PARTIAL_FALLBACK)
    case Preamble => text == streamed
    case _ => true
  }

  /** A row a `done` may carry: anything but a tool step. */
  predicate Carries(persisted: set<Row>, text: string) {
    || Row(Reply, text) in persisted || Row(Preamble, text) in persisted
    || Row(ProposalRow, text) in persisted || Row(Terminal, text) in persisted
  }

  function HeldBy(e: Effect): seq<Proposal> {
    if e.Gated? && e.verdict.Block? && e.verdict.proposal.Some? then [e.verdict.proposal.value] else []
  }

  function SurfacedBy(e: Effect): seq<Proposal> {
    if e.Emitted? && e.event.ProposalEvent? then [e.event.proposal] else []
  }

  function Observe(base: seq<Message>, m: Monitor, e: Effect): Monitor {
    Monitor(
      MeterCall(m.meter, e),
      if e.Lease? then e.reply != Lost && !m.meter.inFlight else m.armed && !e.CallStarted? && !e.Dispatched?,
      m.fenced && (e.Wrote? ==> m.armed),
      if e.CallStarted? then m.calls + 1 else m.calls,
      if e.Debited? then m.debits + [e.tokens] else m.debits,
      m.paired && (e.CallStarted? ==> WellFormed(base, e.messages)),
      if e.Emitted? && Final(e.event) then m.finals + 1 else m.finals,
      if e.Emitted? then Some(e.event) else m.lastEvent,
      m.lost || e == Lease(Lost),
      m.quiet && (m.lost ==> e.Debited?),
      if e.Wrote? && e.ok then m.persisted + {Row(e.kind, e.text)} else m.persisted,
      if e.CallStarted? then [] else m.held + HeldBy(e),
      m.surfaced + SurfacedBy(e),
      m.truthful && Honours(m, e),
      Some(e))
  }

  predicate Honours(m: Monitor, e: Effect) {
    match e
    case Wrote(kind, text, _) => InItsOwnWords(kind, text, m.meter.streamed)
    case Dispatched(call) => m.last.Some? && m.last.value.Gated? && m.last.value.verdict == Allow(call)
    case Emitted(ProposalEvent(p)) => m.last.Some? && m.last.value.Wrote? && m.last.value.text == p.summary
    case Emitted(DoneEvent(row)) => Carries(m.persisted, row) && m.surfaced == m.held
    case Emitted(ToolStepEvent(row)) => Row(ToolStep, row) in m.persisted
    case _ => true
  }

  function Watch(base: seq<Message>, log: seq<Effect>): Monitor {
    if log == [] then FRESH else Observe(base, Watch(base, log[..|log| - 1]), log[|log| - 1])
  }

  lemma WatchSnoc(base: seq<Message>, log: seq<Effect>, e: Effect)
    ensures Watch(base, log + [e]) == Observe(base, Watch(base, log), e)
  {
    assert (log + [e])[..|log|] == log;
  }

  function MeterOf(log: seq<Effect>): Meter {
    if log == [] then NO_CALL else MeterCall(MeterOf(log[..|log| - 1]), log[|log| - 1])
  }

  lemma {:induction false} WatchedMeter(base: seq<Message>, log: seq<Effect>)
    ensures Watch(base, log).meter == MeterOf(log)
  {
    if log != [] {
      var before := log[..|log| - 1];
      WatchedMeter(base, before);
      assert Watch(base, log) == Observe(base, Watch(base, before), log[|log| - 1]);
    }
  }

  /** A lease check at j that did not report loss covers position i: no model call is in flight
      at the check, and no model call and no tool dispatch starts between them. */
  ghost predicate CheckedAt(log: seq<Effect>, j: int, i: int) {
    && 0 <= j < i <= |log|
    && log[j].Lease? && log[j].reply != Lost && !MeterOf(log[..j]).inFlight
    && forall k :: j < k < i ==> !log[k].CallStarted? && !log[k].Dispatched? && log[k] != Lease(Lost)
  }

  lemma CheckedInPrefix(before: seq<Effect>, log: seq<Effect>, j: int, i: int)
    requires before <= log && CheckedAt(before, j, i)
    ensures CheckedAt(log, j, i)
  {
    assert log[..j] == before[..j];
  }

  lemma ObserveArms(base: seq<Message>, m: Monitor, e: Effect)
    requires Observe(base, m, e).armed
    ensures if e.Lease? then e.reply != Lost && !m.meter.inFlight
            else m.armed && !e.CallStarted? && !e.Dispatched?
  {
  }

  lemma {:induction false} ArmedMeansChecked(base: seq<Message>, log: seq<Effect>)
    requires Watch(base, log).armed
    ensures exists j :: CheckedAt(log, j, |log|)
  {
    var before, last := log[..|log| - 1], log[|log| - 1];
    ObserveArms(base, Watch(base, before), last);
    if last.Lease? {
      WatchedMeter(base, before);
      assert CheckedAt(log, |log| - 1, |log|);
    } else {
      ArmedMeansChecked(base, before);
      var j :| CheckedAt(before, j, |before|);
      CheckedInPrefix(before, log, j, |before|);
      assert CheckedAt(log, j, |log|);
    }
  }

  lemma ObserveFences(base: seq<Message>, m: Monitor, e: Effect)
    ensures Observe(base, m, e).fenced <==> m.fenced && (e.Wrote? ==> m.armed)
  {
  }

  /** The monitor's verdict in plain terms: every row is preceded by a lease check that did
      not report loss, with no model call or tool dispatch in between. */
  lemma {:induction false} FencedMeansEveryRowChecked(base: seq<Message>, log: seq<Effect>, i: nat)
    requires Watch(base, log).fenced && i < |log| && log[i].Wrote?
    ensures exists j :: CheckedAt(log, j, i)
  {
    var before := log[..|log| - 1];
    ObserveFences(base, Watch(base, before), log[|log| - 1]);
    if i == |before| {
      ArmedMeansChecked(base, before);
    } else {
      FencedMeansEveryRowChecked(base, before, i);
    }
    var j :| CheckedAt(before, j, i);
    CheckedInPrefix(before, log, j, i);
  }

  lemma ObserveRemembersLoss(base: seq<Message>, m: Monitor, e: Effect)
    ensures m.lost || e == Lease(Lost) ==> Observe(base, m, e).lost
  {
  }

  lemma {:induction false} LostIsRemembered(base: seq<Message>, log: seq<Effect>, j: nat)
    requires j < |log| && log[j] == Lease(Lost)
    ensures Watch(base, log).lost
  {
    var before := log[..|log| - 1];
    if j < |before| {
      LostIsRemembered(base, before, j);
    }
    ObserveRemembersLoss(base, Watch(base, before), log[|log| - 1]);
  }

  /** After a check that reports loss a turn does nothing but settle its bill. */
  lemma {:induction false} QuietMeansStandsDown(base: seq<Message>, log: seq<Effect>, j: nat, i: nat)
    requires Watch(base, log).quiet && j < i < |log| && log[j] == Lease(Lost)
    ensures log[i].Debited?
  {
    var before := log[..|log| - 1];
    if i == |before| {
      LostIsRemembered(base, before, j);
    } else {
      QuietMeansStandsDown(base, before, j, i);
    }
  }

  /** Once the room is lost at position p, and every later check says so, whatever the turn
      still writes is covered by a check made before p, with no model call or dispatch in
      between, and precedes its next check: it finishes its current step and stops. */
  lemma SupersededTurnFinishesItsStep(base: seq<Message>, log: seq<Effect>, p: nat, i: nat)
    requires Watch(base, log).fenced && Watch(base, log).quiet
    requires p <= i < |log| && log[i].Wrote?
    requires forall k :: p <= k < |log| && log[k].Lease? ==> log[k].reply == Lost
    ensures forall k :: p <= k < i ==> !log[k].Lease?
    ensures exists j :: j < p && CheckedAt(log, j, i)
  {
    forall k | p <= k < i && log[k].Lease?
      ensures false
    {
      QuietMeansStandsDown(base, log, k, i);
    }
    FencedMeansEveryRowChecked(base, log, i);
  }
}
