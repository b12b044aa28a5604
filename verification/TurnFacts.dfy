/** The monitor's verdicts on a finished turn, spelled out over the effects themselves. */
module TurnFacts {
  import opened Wrappers
  import opened Usage
  import opened TurnLog
  import opened TurnProtocol
  import opened Harness

  /** At each model call, every tool call in the running message log has exactly one result,
      in call order and before the next assistant message. */
  lemma {:induction false} EveryCallSeesPairedMessages(base: seq<Message>, log: seq<Effect>, i: nat)
    requires Watch(base, log).paired && i < |log| && log[i].CallStarted?
    ensures WellFormed(base, log[i].messages)
  {
    if i < |log| - 1 {
      EveryCallSeesPairedMessages(base, log[..|log| - 1], i);
    }
  }

  predicate IsResolution(e: Effect) {
    e.CallEnded? || e.CallFaulted? || e.CallAborted?
  }

  function TextOf(e: Effect): string {
    match e
    case Emitted(TokenEvent(text)) => text
    case _ => ""
  }

  /** The text forwarded to the consumer between two positions. */
  function Forwarded(log: seq<Effect>, lo: nat, hi: nat): string
    requires lo <= hi <= |log|
  {
    if lo == hi then "" else Forwarded(log, lo, hi - 1) + TextOf(log[hi - 1])
  }

  /** The call started at i is still in flight at the end of the log. */
  ghost predicate InFlightSince(log: seq<Effect>, i: nat, m: Meter) {
    && i < |log| && log[i].CallStarted?
    && (forall k :: i < k < |log| ==> !log[k].CallStarted? && !IsResolution(log[k]))
    && m.prompt == PromptText(log[i].messages) && m.script == log[i].script
    && m.streamed == Forwarded(log, i + 1, |log|)
  }

  /** The call started at i is resolved at j, and rightly so. */
  ghost predicate ResolvedAt(log: seq<Effect>, i: nat, j: nat) {
    && i < j < |log| && log[i].CallStarted?
    && (forall k :: i < k < j ==> !log[k].CallStarted? && !IsResolution(log[k]))
    && match log[j]
       case CallEnded(u) => log[i].script.end.Some? && u == log[i].script.end.value.usage
       case CallFaulted => log[i].script.end == None
       case CallAborted(u) => u == EstimateUsage(PromptText(log[i].messages), Forwarded(log, i + 1, j))
       case _ => false
  }

  lemma {:induction false} ForwardedDependsOnPrefix(log: seq<Effect>, more: seq<Effect>, lo: nat, hi: nat)
    requires lo <= hi <= |log| && log <= more
    ensures Forwarded(log, lo, hi) == Forwarded(more, lo, hi)
    decreases hi
  {
    if lo < hi {
      ForwardedDependsOnPrefix(log, more, lo, hi - 1);
    }
  }

  /** Every model call of a finished run is resolved exactly once, and rightly: by the usage
      the provider reported, by a fault only where the provider broke, or by the estimate for
      the prompt sent and exactly the text the consumer was given. */
  lemma {:induction false} EveryCallIsResolved(base: seq<Message>, log: seq<Effect>, i: nat)
    requires Watch(base, log).meter.honest && !Watch(base, log).meter.inFlight
    requires i < |log| && log[i].CallStarted?
    ensures exists j: nat :: ResolvedAt(log, i, j)
  {
    WatchedMeter(base, log);
    ResolvedOrInFlight(log, i);
  }

  lemma ResolvedPersists(before: seq<Effect>, log: seq<Effect>, i: nat, j: nat)
    requires before <= log && ResolvedAt(before, i, j)
    ensures ResolvedAt(log, i, j)
  {
    ForwardedDependsOnPrefix(before, log, i + 1, j);
  }

  lemma InFlightThenNext(m: Meter, before: seq<Effect>, last: Effect, i: nat)
    requires InFlightSince(before, i, m) && MeterCall(m, last).honest && m.inFlight
    ensures if IsResolution(last) then ResolvedAt(before + [last], i, |before|)
            else InFlightSince(before + [last], i, MeterCall(m, last)) && MeterCall(m, last).inFlight
  {
    ForwardedDependsOnPrefix(before, before + [last], i + 1, |before|);
  }

  lemma {:induction false} ResolvedOrInFlight(log: seq<Effect>, i: nat)
    requires MeterOf(log).honest && i < |log| && log[i].CallStarted?
    ensures (exists j: nat :: ResolvedAt(log, i, j)) || (MeterOf(log).inFlight && InFlightSince(log, i, MeterOf(log)))
  {
    var before, last := log[..|log| - 1], log[|log| - 1];
    assert log == before + [last];
    if i < |before| {
      ResolvedOrInFlight(before, i);
      if j: nat :| ResolvedAt(before, i, j) {
        ResolvedPersists(before, log, i, j);
      } else {
        InFlightThenNext(MeterOf(before), before, last, i);
      }
    }
  }

  function TokensOf(e: Effect): int {
    match e
    case CallEnded(u) => u.totalTokens
    case CallAborted(u) => u.totalTokens
    case _ => 0
  }

  /** Tokens of all resolutions: reported for a clean call, estimated for an abandoned one,
      nothing for a faulted one. */
  function Metered(log: seq<Effect>): int {
    if log == [] then 0 else TokensOf(log[0]) + Metered(log[1..])
  }

  lemma {:induction false} MeteredSnoc(log: seq<Effect>, e: Effect)
    ensures Metered(log + [e]) == Metered(log) + Metered([e])
  {
    if log == [] {
      assert log + [e] == [e];
    } else {
      assert (log + [e])[1..] == log[1..] + [e];
      MeteredSnoc(log[1..], e);
    }
  }

  lemma {:induction false} MeterAddsUp(log: seq<Effect>)
    ensures MeterOf(log).metered == Metered(log)
  {
    if log != [] {
      var before, last := log[..|log| - 1], log[|log| - 1];
      MeterAddsUp(before);
      MeteredSnoc(before, last);
      assert before + [last] == log;
    }
  }

  /** The wallet debits of a log, in order. */
  function Debits(log: seq<Effect>): seq<int> {
    if log == [] then [] else (if log[0].Debited? then [log[0].tokens] else []) + Debits(log[1..])
  }

  lemma {:induction false} DebitsSnoc(log: seq<Effect>, e: Effect)
    ensures Debits(log + [e]) == Debits(log) + Debits([e])
  {
    if log == [] {
      assert log + [e] == [e];
    } else {
      assert (log + [e])[1..] == log[1..] + [e];
      DebitsSnoc(log[1..], e);
    }
  }

  lemma ObserveDebits(base: seq<Message>, m: Monitor, e: Effect)
    ensures Observe(base, m, e).debits == m.debits + if e.Debited? then [e.tokens] else []
  {
  }

  lemma {:induction false} WatchedDebits(base: seq<Message>, log: seq<Effect>)
    ensures Watch(base, log).debits == Debits(log)
  {
    if log != [] {
      var before, last := log[..|log| - 1], log[|log| - 1];
      WatchedDebits(base, before);
      DebitsSnoc(before, last);
      ObserveDebits(base, Watch(base, before), last);
      assert before + [last] == log;
      assert last.Debited? ==> Debits([last]) == [last.tokens] + Debits([]);
      assert !last.Debited? ==> Debits([last]) == [] + Debits([]);
    }
  }

  /** A turn debits the wallet at most once: retrieval plus everything its calls metered.
      It debits whenever there is a wallet and that sum is positive, unless the loop left
      by one of the four exits that settle nothing. */
  lemma TurnDebitsOnce(t: Turn, config: Config, perceives: bool)
    requires TurnKept(t, config, perceives)
    ensures var total := t.retrieval + Metered(t.log);
      Debits(t.log) == if Unbilled(AtLoopEnd(t).last, t.exit) || !config.hasQuota || total <= 0 then [] else [total]
  {
    EndTotals(t);
    KeptIsSettled(t, config, perceives, AtLoopEnd(t), AtEnd(t));
  }

  lemma EndTotals(t: Turn)
    ensures AtEnd(t).debits == Debits(t.log) && AtEnd(t).meter.metered == Metered(t.log)
  {
    LogTotals(t.base, t.log, AtEnd(t));
  }

  lemma LogTotals(base: seq<Message>, log: seq<Effect>, end: Monitor)
    requires end == Watch(base, log)
    ensures end.debits == Debits(log) && end.meter.metered == Metered(log)
  {
    WatchedDebits(base, log);
    WatchedMeter(base, log);
    MeterAddsUp(log);
  }

  lemma KeptIsSettled(t: Turn, config: Config, perceives: bool, done: Monitor, end: Monitor)
    requires TurnKept(t, config, perceives) && done == AtLoopEnd(t) && end == AtEnd(t)
    ensures end.debits ==
      if Unbilled(done.last, t.exit) then [] else Settlement(config, t.retrieval + end.meter.metered)
  {
    SettledAsConcluded(done, t.exit, Settlement(config, t.retrieval + done.meter.metered));
  }

  lemma SettledAsConcluded(done: Monitor, exit: Exit, due: seq<int>)
    requires Concluded(done, exit, due)
    ensures done.debits == if Unbilled(done.last, exit) then [] else due
  {
  }

  /** The event at i is terminal, and no other event is terminal or comes after it. */
  ghost predicate EndsAt(log: seq<Effect>, i: nat) {
    && i < |log| && log[i].Emitted? && Final(log[i].event)
    && forall k :: 0 <= k < |log| && k != i && log[k].Emitted? ==> k < i && !Final(log[k].event)
  }

  lemma ObserveAnnounced(base: seq<Message>, m: Monitor, e: Effect)
    requires Announced(Observe(base, m, e))
    ensures if e.Emitted? then Final(e.event) && m.finals == 0 else Announced(m)
  {
  }

  /** A turn that was neither superseded nor abandoned announces its end exactly once, and
      that is the last event it emits. */
  lemma {:induction false} AnnouncedIsLast(base: seq<Message>, log: seq<Effect>)
    requires Announced(Watch(base, log))
    ensures exists i: nat :: EndsAt(log, i)
  {
    var before, last := log[..|log| - 1], log[|log| - 1];
    ObserveAnnounced(base, Watch(base, before), last);
    if last.Emitted? {
      NoFinalsBefore(base, before);
      assert forall k :: 0 <= k < |before| ==> log[k] == before[k];
      assert EndsAt(log, |before|);
    } else {
      AnnouncedIsLast(base, before);
      var i: nat :| EndsAt(before, i);
      assert forall k :: 0 <= k < |before| ==> log[k] == before[k];
      assert EndsAt(log, i);
    }
  }

  lemma ObserveCountsFinals(base: seq<Message>, m: Monitor, e: Effect)
    ensures Observe(base, m, e).finals == m.finals + if e.Emitted? && Final(e.event) then 1 else 0
  {
  }

  lemma {:induction false} NoFinalsBefore(base: seq<Message>, log: seq<Effect>)
    requires Watch(base, log).finals == 0
    ensures forall k :: 0 <= k < |log| && log[k].Emitted? ==> !Final(log[k].event)
  {
    if log != [] {
      var before := log[..|log| - 1];
      ObserveCountsFinals(base, Watch(base, before), log[|log| - 1]);
      NoFinalsBefore(base, before);
      assert forall k :: 0 <= k < |before| ==> log[k] == before[k];
    }
  }

  lemma ObserveStaysTruthful(base: seq<Message>, m: Monitor, e: Effect)
    requires Observe(base, m, e).truthful
    ensures m.truthful
    ensures e.Wrote? ==> InItsOwnWords(e.kind, e.text, m.meter.streamed)
    ensures e.Emitted? && e.event.DoneEvent? ==> Carries(m.persisted, e.event.row)
    ensures e.Emitted? && e.event.ToolStepEvent? ==> Row(ToolStep, e.event.row) in m.persisted
    ensures e.Dispatched? ==> m.last.Some? && m.last.value.Gated? && m.last.value.verdict == Allow(e.call)
    ensures e.Emitted? && e.event.DoneEvent? ==> m.surfaced == m.held
  {
  }

  lemma ObservePersists(base: seq<Message>, m: Monitor, e: Effect)
    ensures Observe(base, m, e).persisted == m.persisted + if e.Wrote? && e.ok then {Row(e.kind, e.text)} else {}
  {
  }

  /** This row was persisted at j. */
  ghost predicate PersistedAt(log: seq<Effect>, j: nat, row: Row) {
    j < |log| && log[j] == Wrote(row.kind, row.text, true)
  }

  lemma {:induction false} PersistedSomewhere(base: seq<Message>, log: seq<Effect>, row: Row)
    requires row in Watch(base, log).persisted
    ensures exists j: nat :: PersistedAt(log, j, row)
  {
    var before, last := log[..|log| - 1], log[|log| - 1];
    ObservePersists(base, Watch(base, before), last);
    if row in Watch(base, before).persisted {
      PersistedSomewhere(base, before, row);
      var j: nat :| PersistedAt(before, j, row);
      assert PersistedAt(log, j, row);
    } else {
      assert PersistedAt(log, |before|, row);
    }
  }

  /** The kinds of row an event may carry: a tool step its own, a `done` any other. */
  predicate MayCarry(e: ChatEvent, kind: RowKind) {
    (e.ToolStepEvent? && kind == ToolStep) || (e.DoneEvent? && kind != ToolStep)
  }

  /** The row the event carries was persisted before position i. */
  ghost predicate CarriesPersisted(log: seq<Effect>, i: nat, e: ChatEvent, j: nat, row: Row) {
    j < i && PersistedAt(log, j, row) && MayCarry(e, row.kind) && row.text == e.row
  }

  lemma CarriedIsPersisted(base: seq<Message>, log: seq<Effect>, e: ChatEvent)
    requires e.DoneEvent? || e.ToolStepEvent?
    requires if e.DoneEvent? then Carries(Watch(base, log).persisted, e.row)
             else Row(ToolStep, e.row) in Watch(base, log).persisted
    ensures exists j: nat, row :: CarriesPersisted(log, |log|, e, j, row)
  {
    var persisted := Watch(base, log).persisted;
    var kind :| Row(kind, e.row) in persisted && MayCarry(e, kind);
    PersistedSomewhere(base, log, Row(kind, e.row));
    var j: nat :| PersistedAt(log, j, Row(kind, e.row));
    assert CarriesPersisted(log, |log|, e, j, Row(kind, e.row));
  }

  /** What the owner is told exists does exist: the row a `tool_step` carries, or the reply,
      pre-amble, proposal or terminal row a `done` carries, was persisted earlier in the turn. */
  lemma {:induction false} AnnouncedRowsArePersisted(base: seq<Message>, log: seq<Effect>, i: nat)
    requires Watch(base, log).truthful && i < |log| && log[i].Emitted?
    requires log[i].event.DoneEvent? || log[i].event.ToolStepEvent?
    ensures exists j: nat, row :: CarriesPersisted(log, i, log[i].event, j, row)
  {
    var before := log[..|log| - 1];
    ObserveStaysTruthful(base, Watch(base, before), log[|log| - 1]);
    if i == |before| {
      CarriedIsPersisted(base, before, log[i].event);
    } else {
      AnnouncedRowsArePersisted(base, before, i);
    }
    var j: nat, row :| CarriesPersisted(before, i, log[i].event, j, row);
    assert CarriesPersisted(log, i, log[i].event, j, row);
  }

  /** The text streamed by the last call started before position i, or nothing. */
  function StreamedBefore(log: seq<Effect>, i: nat): string
    requires i <= |log|
  {
    if i == 0 then ""
    else if log[i - 1].CallStarted? then ""
    else StreamedBefore(log, i - 1) + TextOf(log[i - 1])
  }

  lemma {:induction false} MeterStreamed(log: seq<Effect>)
    ensures MeterOf(log).streamed == StreamedBefore(log, |log|)
  {
    if log != [] {
      var before := log[..|log| - 1];
      MeterStreamed(before);
      StreamedDependsOnPrefix(before, log, |before|);
    }
  }

  lemma {:induction false} StreamedDependsOnPrefix(log: seq<Effect>, more: seq<Effect>, i: nat)
    requires i <= |log| && log <= more
    ensures StreamedBefore(log, i) == StreamedBefore(more, i)
  {
    if i > 0 {
      StreamedDependsOnPrefix(log, more, i - 1);
    }
  }

  /** What is kept is what was said: a reply row holds exactly the text the consumer saw
      streamed by the last model call, or the fallback when there was none, and a pre-amble
      row holds exactly that text. */
  lemma {:induction false} RowsCarryTheModelsWords(base: seq<Message>, log: seq<Effect>, i: nat)
    requires Watch(base, log).truthful && i < |log| && log[i].Wrote?
    ensures InItsOwnWords(log[i].kind, log[i].text, StreamedBefore(log, i))
  {
    var before := log[..|log| - 1];
    ObserveStaysTruthful(base, Watch(base, before), log[|log| - 1]);
    if i == |before| {
      WatchedMeter(base, before);
      MeterStreamed(before);
    } else {
      RowsCarryTheModelsWords(base, before, i);
    }
    StreamedDependsOnPrefix(before, log, i);
  }

  /** Nothing runs that the gate did not allow: each dispatch follows directly on the gate's
      allowing exactly that call. */
  lemma {:induction false} DispatchedIsAllowed(base: seq<Message>, log: seq<Effect>, i: nat)
    requires Watch(base, log).truthful && i < |log| && log[i].Dispatched?
    ensures i > 0 && log[i - 1].Gated? && log[i - 1].verdict == Allow(log[i].call)
  {
    var before := log[..|log| - 1];
    ObserveStaysTruthful(base, Watch(base, before), log[|log| - 1]);
    if i == |before| {
      LastIsLast(base, before);
    } else {
      DispatchedIsAllowed(base, before, i);
    }
  }

  lemma LastIsLast(base: seq<Message>, log: seq<Effect>)
    ensures Watch(base, log).last == if log == [] then None else Some(log[|log| - 1])
  {
    if log != [] {
      assert Watch(base, log) == Observe(base, Watch(base, log[..|log| - 1]), log[|log| - 1]);
    }
  }

  /** The proposals the gate held since the last model call. */
  function HeldIn(log: seq<Effect>): seq<Proposal> {
    if log == [] || log[|log| - 1].CallStarted? then [] else HeldIn(log[..|log| - 1]) + HeldBy(log[|log| - 1])
  }

  function SurfacedIn(log: seq<Effect>): seq<Proposal> {
    if log == [] then [] else SurfacedIn(log[..|log| - 1]) + SurfacedBy(log[|log| - 1])
  }

  lemma ObserveProposals(base: seq<Message>, m: Monitor, e: Effect)
    ensures Observe(base, m, e).held == if e.CallStarted? then [] else m.held + HeldBy(e)
    ensures Observe(base, m, e).surfaced == m.surfaced + SurfacedBy(e)
  {
  }

  lemma {:induction false} WatchedProposals(base: seq<Message>, log: seq<Effect>)
    ensures Watch(base, log).held == HeldIn(log) && Watch(base, log).surfaced == SurfacedIn(log)
  {
    if log != [] {
      WatchedProposals(base, log[..|log| - 1]);
      ObserveProposals(base, Watch(base, log[..|log| - 1]), log[|log| - 1]);
    }
  }

  /** A `done` never leaves a held action unsurfaced: the proposals emitted before it are
      exactly those the gate held since the last model call, in order, each once. */
  lemma {:induction false} HeldActionsAreSurfaced(base: seq<Message>, log: seq<Effect>, i: nat)
    requires Watch(base, log).truthful && i < |log| && log[i].Emitted? && log[i].event.DoneEvent?
    ensures SurfacedIn(log[..i]) == HeldIn(log[..i])
  {
    var before := log[..|log| - 1];
    ObserveStaysTruthful(base, Watch(base, before), log[|log| - 1]);
    if i == |before| {
      WatchedProposals(base, before);
    } else {
      HeldActionsAreSurfaced(base, before, i);
      assert before[..i] == log[..i];
    }
  }
}
