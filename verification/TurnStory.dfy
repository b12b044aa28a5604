/** A turn's story, told by its log and the outside world's answers alone: the conversation so far,
    what the model asked for, what was held back and what was recorded. Every effect of a turn is
    what the story calls for, and whatever must end a turn does. */
module TurnStory {
  import opened Wrappers
  import opened Usage
  import opened TurnLog
  import opened TurnProtocol
  import opened Harness
  import opened TurnPaths

  datatype Story = Story(
    ms: seq<Message>, said: string, owed: int, script: Script, answered: bool, asked: seq<ToolCall>, gates: nat,
    blocked: bool, held: seq<Proposal>, reason: string, shown: Option<string>,
    rows: map<RowKind, string>, surfaced: nat)

  function Opening(t: Turn): Story {
    Story(t.base, "", t.retrieval, Script([], None), false, [], 0, false, [], "", None, map[], 0)
  }

  /** One more effect. An answered call opens a round of what it asked for; each gate is asked about
      the next of them; a result joins the conversation under the call it answers. */
  function Tell(env: Environment, s: Story, e: Effect, k: nat): Story {
    match e
    case CallStarted(_, script) => s.(script := script)
    case CallEnded(usage) =>
      var said, asked := Joined(s.script.chunks), if s.script.end.Some? then s.script.end.value.toolCalls else [];
      s.(said := said, owed := s.owed + usage.totalTokens, answered := asked == [], asked := asked, gates := 0,
      ms := if asked == [] then s.ms else s.ms + [Assistant(said, asked)], blocked := false, held := [], reason := "")
    case CallAborted(estimate) => s.(owed := s.owed + estimate.totalTokens)
    case Gated(_, Block(proposal, reason)) =>
      s.(gates := s.gates + 1, blocked := true,
      held := s.held + (if proposal.Some? then [proposal.value] else []),
      reason := if proposal.None? && s.reason == "" then reason else s.reason)
    case Gated(_, _) => s.(gates := s.gates + 1)
    case Dispatched(_) =>
      var reply := env.tool(k);
      s.(shown := reply.summary,
      ms := if reply.content.Some? && 0 < s.gates <= |s.asked|
      then s.ms + [Tool(reply.content.value, s.asked[s.gates - 1].id)] else s.ms)
    case Wrote(kind, text, ok) => if ok then s.(rows := s.rows[kind := text]) else s
    case Emitted(ProposalEvent(_)) => s.(surfaced := s.surfaced + 1)
    case _ => s
  }

  /** The story of log[lo..hi]. */
  function Told(env: Environment, s: Story, log: seq<Effect>, lo: nat, hi: nat): Story
    requires lo <= hi <= |log|
  {
    if lo == hi then s else Tell(env, Told(env, s, log, lo, hi - 1), log[hi - 1], hi - 1)
  }

  /** The row the terminal event carries: the last resort if it was needed, else the reply, else the
      pre-amble, else the last proposal row that was really persisted. */
  function Carried(s: Story): Option<string> {
    if Terminal in s.rows then Some(s.rows[Terminal])
    else if Reply in s.rows then Some(s.rows[Reply])
    else if Preamble in s.rows then Some(s.rows[Preamble])
    else if ProposalRow in s.rows then Some(s.rows[ProposalRow])
    else None
  }

  /** The last resort: the first reason given, else the first held action, else a fixed text. */
  function LastResort(s: Story): string {
    if s.reason != "" then s.reason
    else if s.held != [] && s.held[0].summary != "" then s.held[0].summary
    else HELD_TURN_FALLBACK
  }

  /** What the story calls for. */
  predicate InPlace(config: Config, s: Story, e: Effect) {
    match e
    case CallStarted(ms, _) => ms == s.ms
    case Gated(call, _) => s.gates < |s.asked| && call == s.asked[s.gates]
    case Wrote(Reply, text, _) => !s.blocked && text == if !s.answered && s.said == "" then PARTIAL_FALLBACK else s.said
    case Wrote(ToolStep, text, _) => s.shown == Some(text)
    case Wrote(Preamble, text, _) => s.blocked && s.gates == |s.asked| && text == s.said && !Blank(text)
    case Wrote(ProposalRow, text, _) =>
      && s.gates == |s.asked| && s.surfaced < |s.held| && text == s.held[s.surfaced].summary
      && (!Blank(s.said) ==> Preamble in s.rows)
    case Wrote(Terminal, text, _) => s.blocked && s.surfaced == |s.held| && Carried(s) == None && text == LastResort(s)
    case Emitted(ProposalEvent(p)) => s.surfaced < |s.held| && p == s.held[s.surfaced]
    case Emitted(DoneEvent(row)) => Carried(s) == Some(row)
    case Emitted(ErrorEvent) => Carried(s) == None
    case Debited(tokens) => config.hasQuota && tokens == s.owed > 0
    case _ => true
  }

  predicate CtxIs(c: Ctx, s: Story) {
    c.ms == s.ms && c.said == s.said && OwedAt(c) == s.owed
    && s.surfaced == 0 && s.rows.Keys <= {ToolStep}
  }

  predicate HoldIs(h: Hold, s: Story) {
    h == Hold(s.blocked, s.held, s.reason)
  }

  predicate InRoundAt(c: Ctx, left: seq<ToolCall>, h: Hold, s: Story) {
    CtxIs(c, s) && HoldIs(h, s) && !s.answered && s.gates <= |s.asked| && left == s.asked[s.gates..]
  }

  predicate Held(owed: int, h: Hold, s: Story) {
    && HoldIs(h, s) && s.blocked && s.gates == |s.asked| && owed == s.owed && s.surfaced <= |s.held|
    && Reply !in s.rows && Terminal !in s.rows
  }

  /** The machine stands where the story says. */
  predicate Knows(p: Place, s: Story) {
    match p
    case Sources(c) => CtxIs(c, s) && !s.blocked && !s.answered
    case Top(c) => CtxIs(c, s) && !s.blocked && !s.answered
    case Checked(c) => CtxIs(c, s) && !s.blocked && !s.answered
    case Calling(c, script, _) => CtxIs(c, s) && s.script == script
    case Spoken(c) => CtxIs(c, s) && !s.blocked && s.answered
    case Cleared(c) => CtxIs(c, s) && !s.blocked && s.answered
    case Asking(c, left, h) => InRoundAt(c, left, h, s)
    case Allowed(c, call, _, left, h) =>
      InRoundAt(c, left, h, s) && 0 < s.gates && call == s.asked[s.gates - 1]
    case RowDue(c, summary, left, h) => InRoundAt(c, left, h, s) && summary == s.shown
    case RowCleared(c, row, left, h) => InRoundAt(c, left, h, s) && s.shown == Some(row)
    case RowKept(c, _, left, h) => InRoundAt(c, left, h, s)
    case Blocked(c, h) => InRoundAt(c, [], h, s) && s.blocked
    case Holding(text, owed, h) =>
      Held(owed, h, s) && text == s.said && !Blank(text) && s.surfaced == 0 && s.rows.Keys <= {ToolStep}
    case Surfacing(owed, actions, preamble, lastRow, h) => SurfacesAt(owed, actions, preamble, lastRow, h, s)
    case Tried(owed, actions, preamble, lastRow, h) => SurfacesAt(owed, actions, preamble, lastRow, h, s)
    case Settling(owed, carried, h) => owed == s.owed && EndsAt(carried, h, s)
    case Ending(carried, h) => EndsAt(carried, h, s)
    case Mute => Carried(s) == None
    case Aborting(_, owed) => owed == s.owed
    case Owing(owed, _) => owed == s.owed
    case Out(_) => true
  }

  predicate SurfacesAt(owed: int, actions: seq<Proposal>, preamble: Option<string>, lastRow: Option<string>, h: Hold,
                       s: Story) {
    && Held(owed, h, s) && actions == s.held[s.surfaced..]
    && preamble == (if Preamble in s.rows then Some(s.rows[Preamble]) else None)
    && lastRow == (if ProposalRow in s.rows then Some(s.rows[ProposalRow]) else None)
    && (!Blank(s.said) ==> preamble.Some?)
  }

  predicate EndsAt(carried: Option<string>, h: Hold, s: Story) {
    carried == Carried(s) && (carried.None? ==> HoldIs(h, s) && s.blocked && s.surfaced == |s.held|)
  }

  /** What is owed is positive where it is settled. */
  predicate Payable(config: Config, p: Place) {
    match p
    case Settling(owed, _, _) => config.hasQuota && owed > 0
    case Owing(owed, _) => config.hasQuota && owed > 0
    case _ => true
  }

  lemma InPlaceAt(env: Environment, config: Config, p: Place, k: nat, e: Effect, s: Story)
    requires Due(env, config, p, k) == Some(e) && Knows(p, s) && Payable(config, p)
    ensures InPlace(config, s, e)
  {
  }

  lemma PayableNext(env: Environment, config: Config, p: Place, k: nat)
    ensures Payable(config, p) ==> Payable(config, Next(env, config, p, k))
  {
  }

  lemma KnowsBefore(env: Environment, config: Config, p: Place, k: nat, e: Effect, s: Story)
    requires Due(env, config, p, k) == Some(e) && Knows(p, s)
    requires p.Sources? || p.Top? || p.Checked? || p.Spoken? || p.Cleared?
    ensures Knows(Next(env, config, p, k), Tell(env, s, e, k))
  {
  }

  lemma KnowsCalling(env: Environment, config: Config, p: Place, k: nat, e: Effect, s: Story)
    requires Due(env, config, p, k) == Some(e) && Knows(p, s) && p.Calling?
    ensures Knows(Next(env, config, p, k), Tell(env, s, e, k))
  {
  }

  lemma KnowsAsking(env: Environment, config: Config, p: Place, k: nat, e: Effect, s: Story)
    requires Due(env, config, p, k) == Some(e) && Knows(p, s) && p.Asking?
    ensures Knows(Next(env, config, p, k), Tell(env, s, e, k))
  {
    assert s.asked[s.gates..][1..] == s.asked[s.gates + 1..];
    assert s.asked[s.gates..][0] == s.asked[s.gates];
  }

  lemma KnowsRound(env: Environment, config: Config, p: Place, k: nat, e: Effect, s: Story)
    requires Due(env, config, p, k) == Some(e) && Knows(p, s)
    requires p.RowDue? || p.RowCleared? || p.RowKept? || p.Blocked?
    ensures Knows(Next(env, config, p, k), Tell(env, s, e, k))
  {
  }

  lemma KnowsAllowed(env: Environment, config: Config, p: Place, k: nat, e: Effect, s: Story)
    requires Due(env, config, p, k) == Some(e) && Knows(p, s) && p.Allowed?
    ensures Knows(Next(env, config, p, k), Tell(env, s, e, k))
  {
  }

  lemma KnowsHeld(env: Environment, config: Config, p: Place, k: nat, e: Effect, s: Story)
    requires Due(env, config, p, k) == Some(e) && Knows(p, s) && (p.Holding? || p.Surfacing?)
    ensures Knows(Next(env, config, p, k), Tell(env, s, e, k))
  {
  }

  lemma KnowsTried(env: Environment, config: Config, p: Place, k: nat, e: Effect, s: Story)
    requires Due(env, config, p, k) == Some(e) && Knows(p, s) && p.Tried?
    ensures Knows(Next(env, config, p, k), Tell(env, s, e, k))
  {
    assert s.surfaced < |s.held| ==> s.held[s.surfaced..][1..] == s.held[s.surfaced + 1..];
  }

  lemma KnowsEnding(env: Environment, config: Config, p: Place, k: nat, e: Effect, s: Story)
    requires Due(env, config, p, k) == Some(e) && Knows(p, s)
    requires p.Settling? || p.Ending? || p.Mute? || p.Aborting? || p.Owing? || p.Out?
    ensures Knows(Next(env, config, p, k), Tell(env, s, e, k))
  {
  }

  lemma KnowsNext(env: Environment, config: Config, p: Place, k: nat, e: Effect, s: Story)
    requires Due(env, config, p, k) == Some(e) && Knows(p, s)
    ensures Knows(Next(env, config, p, k), Tell(env, s, e, k))
  {
    if p.Sources? || p.Top? || p.Checked? || p.Spoken? || p.Cleared? {
      KnowsBefore(env, config, p, k, e, s);
    } else if p.Calling? {
      KnowsCalling(env, config, p, k, e, s);
    } else if p.Asking? {
      KnowsAsking(env, config, p, k, e, s);
    } else if p.Allowed? {
      KnowsAllowed(env, config, p, k, e, s);
    } else if p.RowDue? || p.RowCleared? || p.RowKept? || p.Blocked? {
      KnowsRound(env, config, p, k, e, s);
    } else if p.Holding? || p.Surfacing? {
      KnowsHeld(env, config, p, k, e, s);
    } else if p.Tried? {
      KnowsTried(env, config, p, k, e, s);
    } else {
      KnowsEnding(env, config, p, k, e, s);
    }
  }

  ghost predicate InStory(env: Environment, config: Config, t: Turn, path: seq<Place>, i: nat)
    requires i < |path| && t.entered + i <= |t.log|
  {
    Payable(config, path[i]) && Knows(path[i], Told(env, Opening(t), t.log, t.entered, t.entered + i))
  }

  lemma StoryNext(env: Environment, config: Config, t: Turn, path: seq<Place>, i: nat, s: Story)
    requires Played(env, config, t, path) && i + 1 < |path| && t.entered + i < |t.log|
    requires s == Told(env, Opening(t), t.log, t.entered, t.entered + i)
    requires Payable(config, path[i]) && Knows(path[i], s)
    ensures Payable(config, path[i + 1]) && Knows(path[i + 1], Tell(env, s, t.log[t.entered + i], t.entered + i))
    ensures InPlace(config, s, t.log[t.entered + i])
  {
    var k := t.entered + i;
    PlayedAt(env, config, t, path, i);
    InPlaceAt(env, config, path[i], k, t.log[k], s);
    PayableNext(env, config, path[i], k);
    KnowsNext(env, config, path[i], k, t.log[k], s);
  }

  lemma {:induction false} PathIsInStory(env: Environment, config: Config, t: Turn, path: seq<Place>, i: nat)
    requires Played(env, config, t, path) && i < |path|
    ensures t.entered + i <= |t.log| && InStory(env, config, t, path, i)
  {
    assert |path| == t.loopEnd - t.entered + 1;
    if i > 0 {
      PathIsInStory(env, config, t, path, i - 1);
      StoryNext(env, config, t, path, i - 1, Told(env, Opening(t), t.log, t.entered, t.entered + i - 1));
    }
  }

  /** Every effect of a turn is what the story up to it calls for: each model call is sent exactly
      the conversation so far; each gate is asked about the next call of the round, and the round goes
      on past a held one; the rows say what was answered, recorded, held back and, as a last resort,
      why; `done` carries the row it should; and the wallet is charged what is owed. */
  lemma EveryEffectIsInPlace(env: Environment, config: Config, t: Turn, path: seq<Place>, i: nat)
    requires Played(env, config, t, path) && i + 1 < |path|
    ensures t.entered + i < |t.log|
    ensures InPlace(config, Told(env, Opening(t), t.log, t.entered, t.entered + i), t.log[t.entered + i])
  {
    PathIsInStory(env, config, t, path, i);
    StoryNext(env, config, t, path, i, Told(env, Opening(t), t.log, t.entered, t.entered + i));
  }

  /** After the loop: an error that propagated is announced, the post-turn reads are launched for a
      user's turn that ended, and nothing else is done. */
  lemma WhatFollowsTheLoop(t: Turn, config: Config, perceives: bool)
    requires TurnKept(t, config, perceives)
    ensures forall k :: t.loopEnd <= k < |t.log| ==> t.log[k] == Perceived || t.log[k] == Emitted(ErrorEvent)
    ensures (exists k :: t.loopEnd <= k < |t.log| && t.log[k] == Perceived) <==> t.exit == Ended && perceives
    ensures (exists k :: t.loopEnd <= k < |t.log| && t.log[k] == Emitted(ErrorEvent)) <==> t.exit == Threw
  {
    var closing := t.log[t.loopEnd..];
    assert forall k :: t.loopEnd <= k < |t.log| ==> t.log[k] == closing[k - t.loopEnd];
    if closing != [] {
      assert t.log[t.loopEnd] == closing[0];
    }
  }

  // What must come next.

  /** Once it is over, nothing but the bill. */
  predicate Leaving(p: Place, exit: Exit) {
    p == Out(exit) || (p.Owing? && p.exit == exit) || (p.Aborting? && exit == Abandoned)
  }

  lemma LeavingGoesOn(env: Environment, config: Config, p: Place, k: nat, e: Effect, exit: Exit)
    requires Due(env, config, p, k) == Some(e) && Leaving(p, exit)
    ensures (e.Debited? || e.CallAborted?) && Leaving(Next(env, config, p, k), exit)
  {
  }

  lemma {:induction false} LeavesWith(
    env: Environment, config: Config, t: Turn, path: seq<Place>, i: nat, exit: Exit)
    requires Played(env, config, t, path) && i < |path| && Leaving(path[i], exit)
    ensures t.exit == exit && OnlySettles(t.log, t.entered + i, t.loopEnd)
    decreases |path| - i
  {
    assert |path| == t.loopEnd - t.entered + 1;
    if i + 1 < |path| {
      PlayedAt(env, config, t, path, i);
      LeavingGoesOn(env, config, path[i], t.entered + i, t.log[t.entered + i], exit);
      LeavesWith(env, config, t, path, i + 1, exit);
    }
  }

  lemma CauseLeaves(env: Environment, config: Config, p: Place, k: nat, e: Effect, exit: Exit)
    requires Due(env, config, p, k) == Some(e) && CauseAt(env, p, exit, e, k)
    ensures Leaving(Next(env, config, p, k), exit)
  {
  }

  lemma CheckOfARow(env: Environment, config: Config, p: Place, k: nat, e: Effect, f: Effect)
    requires Due(env, config, p, k) == Some(e) && e.Dispatched? && ShowsARow(env.tool(k))
    requires Due(env, config, Next(env, config, p, k), k + 1) == Some(f)
    ensures f.Lease? && Next(env, config, p, k).RowDue? && Next(env, config, p, k).summary == env.tool(k).summary
  {
  }

  /** Whatever is a cause to leave is left for: a lost room, a fault of the provider, a gate or a
      tool's hook that throws, a reply or pre-amble that cannot be written, and a consumer that
      closes the generator end the turn there and then, with nothing after it but the bill. */
  lemma CauseEndsTheTurn(env: Environment, config: Config, t: Turn, path: seq<Place>, i: nat, exit: Exit)
    requires Played(env, config, t, path) && i + 1 < |path| && t.entered + i < |t.log|
    requires Cause(env, t.log, t.entered, exit, t.entered + i)
    ensures t.exit == exit && OnlySettles(t.log, t.entered + i + 1, t.loopEnd)
  {
    var k := t.entered + i;
    PlayedAt(env, config, t, path, i);
    if exit == Threw && t.log[k].Lease? {
      PlayedAt(env, config, t, path, i - 1);
      CheckOfARow(env, config, path[i - 1], k - 1, t.log[k - 1], t.log[k]);
    }
    CauseLeaves(env, config, path[i], k, t.log[k], exit);
    LeavesWith(env, config, t, path, i + 1, exit);
  }

  /** An allowed call is dispatched at once, a success that shows is checked and a row that was kept
      is announced, as is every held action whether or not its row was. */
  predicate MustFollow(env: Environment, e: Effect, k: nat, next: Effect) {
    match e
    case Gated(_, Allow(call)) => next == Dispatched(call)
    case Dispatched(_) => ShowsARow(env.tool(k)) ==> next.Lease?
    case Wrote(ToolStep, row, true) => next == Emitted(ToolStepEvent(row))
    case Wrote(ProposalRow, _, _) => next.Emitted? && next.event.ProposalEvent?
    case Wrote(Reply, text, true) => next.Debited? || next == Emitted(DoneEvent(text))
    case Wrote(Terminal, text, ok) => next == Emitted(if ok then DoneEvent(text) else ErrorEvent)
    case _ => true
  }

  lemma FollowsFrom(env: Environment, config: Config, p: Place, k: nat, e: Effect)
    requires Due(env, config, p, k) == Some(e)
    requires e.Dispatched? ==> ShowsARow(env.tool(k))
    requires e.Gated? ==> e.verdict.Allow?
    requires e.Gated? || e.Dispatched? || (e.Wrote? && (e.ok || e.kind == ProposalRow || e.kind == Terminal)
                                           && e.kind != Preamble)
    ensures var next := Due(env, config, Next(env, config, p, k), k + 1);
      next.Some? && MustFollow(env, e, k, next.value)
  {
  }

  lemma WhatMustFollowDoes(env: Environment, config: Config, t: Turn, path: seq<Place>, i: nat)
    requires Played(env, config, t, path) && i + 1 < |path| && t.entered + i < |t.log|
    ensures var k := t.entered + i; var e := t.log[k];
      (e.Gated? && e.verdict.Allow?) || (e.Dispatched? && ShowsARow(env.tool(k)))
      || (e.Wrote? && e.kind != Preamble && (e.ok || e.kind == ProposalRow || e.kind == Terminal)) ==>
        k + 1 < t.loopEnd && MustFollow(env, e, k, t.log[k + 1])
  {
    var k := t.entered + i;
    PlayedAt(env, config, t, path, i);
    var e := t.log[k];
    if (e.Gated? && e.verdict.Allow?) || (e.Dispatched? && ShowsARow(env.tool(k)))
       || (e.Wrote? && e.kind != Preamble && (e.ok || e.kind == ProposalRow || e.kind == Terminal))
    {
      FollowsFrom(env, config, path[i], k, e);
      assert !path[i + 1].Out?;
      PlayedAt(env, config, t, path, i + 1);
    }
  }
}
