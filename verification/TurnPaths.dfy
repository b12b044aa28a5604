/** What the protocol says of every turn's log: it is determined by the outside world's answers,
    and its ceilings are the configured ones. */
module TurnPaths {
  import opened Wrappers
  import opened Usage
  import opened TurnLog
  import opened TurnProtocol
  import opened Harness
  import F = TurnFacts

  /** The i-th effect of the loop, where it stood then, and where it led. */
  lemma PlayedAt(env: Environment, config: Config, t: Turn, path: seq<Place>, i: nat)
    requires Played(env, config, t, path) && i + 1 < |path|
    ensures |path| == t.loopEnd - t.entered + 1
    ensures Due(env, config, path[i], t.entered + i) == Some(t.log[t.entered + i])
    ensures Next(env, config, path[i], t.entered + i) == path[i + 1]
  {
    assert LinkedAt(env, config, path, t.log[..t.loopEnd], t.entered, i);
  }

  /** Along two paths in the same world from the same start one stands at the same places. */
  lemma {:induction false} SamePlaces(
    env: Environment, config: Config, t: Turn, path: seq<Place>, u: Turn, path': seq<Place>, i: nat)
    requires Played(env, config, t, path) && Played(env, config, u, path')
    requires StartOf(t) == StartOf(u) && t.entered == u.entered && i < |path| && i < |path'|
    ensures path[i] == path'[i]
  {
    if i > 0 {
      SamePlaces(env, config, t, path, u, path', i - 1);
      PlayedAt(env, config, t, path, i - 1);
      PlayedAt(env, config, u, path', i - 1);
    }
  }

  lemma EndsFirst(env: Environment, config: Config, t: Turn, path: seq<Place>, u: Turn, path': seq<Place>)
    requires Played(env, config, t, path) && Played(env, config, u, path')
    requires StartOf(t) == StartOf(u) && t.entered == u.entered
    ensures |path'| <= |path|
  {
    if |path| < |path'| {
      SamePlaces(env, config, t, path, u, path', |path| - 1);
      PlayedAt(env, config, u, path', |path| - 1);
    }
  }

  /** Two turns in the same world from the same start do the same and end the same way: what the
      loop does is a function of the answers it gets. */
  lemma TurnIsDetermined(env: Environment, config: Config, t: Turn, path: seq<Place>, u: Turn, path': seq<Place>)
    requires Played(env, config, t, path) && Played(env, config, u, path')
    requires StartOf(t) == StartOf(u) && t.entered == u.entered
    ensures t.loopEnd == u.loopEnd && t.exit == u.exit
    ensures t.log[t.entered..t.loopEnd] == u.log[u.entered..u.loopEnd]
  {
    EndsFirst(env, config, t, path, u, path');
    EndsFirst(env, config, u, path', t, path);
    SamePlaces(env, config, t, path, u, path', |path| - 1);
    forall k | t.entered <= k < t.loopEnd
      ensures t.log[k] == u.log[k]
    {
      SamePlaces(env, config, t, path, u, path', k - t.entered);
      PlayedAt(env, config, t, path, k - t.entered);
      PlayedAt(env, config, u, path', k - t.entered);
    }
  }

  /** So a turn whose path is known up to its end has exactly the effects due along it. */
  lemma PlayedIs(env: Environment, config: Config, t: Turn, path: seq<Place>, places: seq<Place>, log: seq<Effect>,
                 exit: Exit)
    requires Played(env, config, t, path) && IsPath(env, config, places, log, t.entered)
    requires places[0] == StartOf(t) && places[|places| - 1] == Out(exit)
    ensures t.log[t.entered..t.loopEnd] == log[t.entered..] && t.exit == exit
  {
    var u := t.(log := log, exit := exit, loopEnd := |log|);
    assert log[..|log|] == log;
    TurnIsDetermined(env, config, t, path, u, places);
    assert log[t.entered..|log|] == log[t.entered..];
  }

  // Ceilings.

  /** The model calls started in a stretch of a log. */
  function Calls(log: seq<Effect>): nat {
    if log == [] then 0 else Calls(log[..|log| - 1]) + if log[|log| - 1].CallStarted? then 1 else 0
  }

  /** A ceiling is met by what the loop has called and metered before its i-th effect: as many calls
      as are configured, or a budget no larger than the tokens. */
  predicate AtCeiling(config: Config, t: Turn, i: nat)
    requires t.entered + i <= |t.log|
  {
    var l := t.log[t.entered..t.entered + i];
    || config.maxToolIterations <= Calls(l)
    || (config.turnTokenBudget.Some? && config.turnTokenBudget.value <= F.Metered(l))
  }

  /** The places that carry a running context. */
  predicate InLoop(p: Place) {
    || p.Sources? || p.Top? || p.Checked? || p.Calling? || p.Spoken? || p.Cleared? || p.Asking? || p.Allowed?
    || p.RowDue? || p.RowCleared? || p.RowKept? || p.Blocked?
  }

  predicate Counted(p: Place, calls: nat, metered: int) {
    InLoop(p) ==> p.c.calls == calls && p.c.metered == metered
  }

  lemma StepCounts(env: Environment, config: Config, p: Place, k: nat, e: Effect, calls: nat, metered: int)
    requires Counted(p, calls, metered) && Due(env, config, p, k) == Some(e)
    ensures Counted(Next(env, config, p, k), calls + (if e.CallStarted? then 1 else 0), metered + F.TokensOf(e))
  {
  }

  lemma PathCounts(env: Environment, config: Config, t: Turn, path: seq<Place>, i: nat, calls: nat, metered: int)
    requires Played(env, config, t, path) && i + 1 < |path| && Counted(path[i], calls, metered)
    ensures t.entered + i < |t.log|
    ensures var e := t.log[t.entered + i];
      Counted(path[i + 1], calls + (if e.CallStarted? then 1 else 0), metered + F.TokensOf(e))
  {
    PlayedAt(env, config, t, path, i);
    StepCounts(env, config, path[i], t.entered + i, t.log[t.entered + i], calls, metered);
  }

  lemma CountsSnoc(log: seq<Effect>, e: Effect)
    ensures Calls(log + [e]) == Calls(log) + (if e.CallStarted? then 1 else 0)
    ensures F.Metered(log + [e]) == F.Metered(log) + F.TokensOf(e)
  {
    assert (log + [e])[..|log|] == log;
    F.MeteredSnoc(log, e);
    assert [e][1..] == [];
  }

  lemma SliceSnoc(log: seq<Effect>, lo: nat, hi: nat)
    requires lo <= hi < |log|
    ensures log[lo..hi + 1] == log[lo..hi] + [log[hi]]
  {
  }

  lemma {:induction false} ContextCounts(env: Environment, config: Config, t: Turn, path: seq<Place>, i: nat)
    requires Played(env, config, t, path) && i < |path|
    ensures t.entered + i <= |t.log|
    ensures var l := t.log[t.entered..t.entered + i]; Counted(path[i], Calls(l), F.Metered(l))
  {
    if i > 0 {
      var before := t.log[t.entered..t.entered + i - 1];
      ContextCounts(env, config, t, path, i - 1);
      PathCounts(env, config, t, path, i - 1, Calls(before), F.Metered(before));
      CountsSnoc(before, t.log[t.entered + i - 1]);
      SliceSnoc(t.log, t.entered, t.entered + i - 1);
    }
  }

  lemma CallsFrom(env: Environment, config: Config, p: Place, k: nat, e: Effect)
    requires Due(env, config, p, k) == Some(e) && e.CallStarted?
    ensures p.Checked? && !CeilingMet(config, p.c.calls, p.c.metered)
  {
  }

  /** No model call starts once a ceiling is met: not beyond the configured number of calls, nor
      when the tokens metered before it already meet the budget. */
  lemma NoCallPastTheCeiling(env: Environment, config: Config, t: Turn, path: seq<Place>, i: nat)
    requires Played(env, config, t, path) && i + 1 < |path| && t.log[t.entered + i].CallStarted?
    ensures !AtCeiling(config, t, i)
  {
    PlayedAt(env, config, t, path, i);
    CallsFrom(env, config, path[i], t.entered + i, t.log[t.entered + i]);
    ContextCounts(env, config, t, path, i);
  }

  /** The call started at j was answered in words alone, streamed to its end at i. */
  ghost predicate AnsweredInWords(log: seq<Effect>, j: nat, i: nat) {
    && StreamedTo(log, j, i) && log[j].script.end.Some? && log[j].script.end.value.toolCalls == []
    && log[i].CallEnded? && i == j + 1 + |log[j].script.chunks|
  }

  /** Since the call started at j nothing was done but forward its text. */
  ghost predicate StreamedTo(log: seq<Effect>, j: nat, i: nat) {
    && j < i < |log| && log[j].CallStarted? && i <= j + 1 + |log[j].script.chunks|
    && forall n: nat :: j < n < i ==> log[n] == Emitted(TokenEvent(log[j].script.chunks[n - j - 1]))
  }

  lemma CallingFrom(env: Environment, config: Config, p: Place, k: nat, e: Effect, q: Place)
    requires Due(env, config, p, k) == Some(e) && Next(env, config, p, k) == q && q.Calling?
    ensures if e.CallStarted? then q.pulled == 0 && q.script == e.script
            else && p.Calling? && p.script == q.script && q.pulled == p.pulled + 1 <= |q.script.chunks|
                 && e == Emitted(TokenEvent(q.script.chunks[p.pulled]))
  {
  }

  /** A path that is in a call has its start behind it and its text so far forwarded. */
  lemma {:induction false} CallIsStreaming(env: Environment, config: Config, t: Turn, path: seq<Place>, i: nat)
    requires Played(env, config, t, path) && i + 1 < |path| && path[i].Calling?
    ensures path[i].pulled < i
    ensures var j := t.entered + i - 1 - path[i].pulled;
      StreamedTo(t.log, j, t.entered + i) && t.log[j].script == path[i].script
  {
    assert i > 0;
    var k := t.entered + i - 1;
    PlayedAt(env, config, t, path, i - 1);
    CallingFrom(env, config, path[i - 1], k, t.log[k], path[i]);
    if !t.log[k].CallStarted? {
      CallIsStreaming(env, config, t, path, i - 1);
    }
  }

  lemma RepliesFrom(env: Environment, config: Config, p: Place, k: nat, e: Effect)
    requires Due(env, config, p, k) == Some(e) && e.Wrote? && e.kind == Reply
    ensures p.Cleared? || (p.Checked? && CeilingMet(config, p.c.calls, p.c.metered))
  {
  }

  lemma ClearedFrom(env: Environment, config: Config, p: Place, k: nat, e: Effect, q: Place)
    requires Due(env, config, p, k) == Some(e) && Next(env, config, p, k) == q && q.Cleared?
    ensures p.Spoken? && e.Lease? && e.reply != Lost
  {
  }

  lemma SpokenFrom(env: Environment, config: Config, p: Place, k: nat, e: Effect, q: Place)
    requires Due(env, config, p, k) == Some(e) && Next(env, config, p, k) == q && q.Spoken?
    ensures p.Calling? && p.pulled >= |p.script.chunks| && e.CallEnded?
    ensures p.script.end.Some? && p.script.end.value.toolCalls == []
  {
  }

  /** A reply is written for one of two reasons: the call just before, with only a lease check in
      between, answered in words alone; or a ceiling is met. */
  lemma ReplyIsEarned(env: Environment, config: Config, t: Turn, path: seq<Place>, i: nat)
    requires Played(env, config, t, path) && i + 1 < |path|
    requires t.log[t.entered + i].Wrote? && t.log[t.entered + i].kind == Reply
    ensures AtCeiling(config, t, i) || ReplyDue(t, i)
  {
    var k := t.entered + i;
    PlayedAt(env, config, t, path, i);
    RepliesFrom(env, config, path[i], k, t.log[k]);
    if path[i].Cleared? {
      assert i > 0;
      ClearedIsDue(env, config, t, path, i);
    } else {
      ContextCounts(env, config, t, path, i);
    }
  }

  ghost predicate ReplyDue(t: Turn, i: nat) {
    && 2 <= i && t.entered + i < |t.log| && t.log[t.entered + i - 1].Lease?
    && SomeAnswer(t.log, t.entered, t.entered + i - 2)
  }

  ghost predicate SomeAnswer(log: seq<Effect>, from: nat, i: nat) {
    exists j: nat :: from <= j && AnsweredInWords(log, j, i)
  }

  lemma ClearedIsDue(env: Environment, config: Config, t: Turn, path: seq<Place>, i: nat)
    requires Played(env, config, t, path) && 0 < i && i + 1 < |path| && path[i].Cleared?
    ensures ReplyDue(t, i)
  {
    var k := t.entered + i;
    PlayedAt(env, config, t, path, i - 1);
    ClearedFrom(env, config, path[i - 1], k - 1, t.log[k - 1], path[i]);
    assert i > 1;
    SpokenIsAnswered(env, config, t, path, i - 1);
  }

  lemma SpokenIsAnswered(env: Environment, config: Config, t: Turn, path: seq<Place>, i: nat)
    requires Played(env, config, t, path) && 0 < i && i + 1 < |path| && path[i].Spoken?
    ensures SomeAnswer(t.log, t.entered, t.entered + i - 1)
  {
    var k := t.entered + i - 1;
    PlayedAt(env, config, t, path, i - 1);
    SpokenFrom(env, config, path[i - 1], k, t.log[k], path[i]);
    CallIsStreaming(env, config, t, path, i - 1);
    assert AnsweredInWords(t.log, k - 1 - path[i - 1].pulled, k);
  }

  // Rounds of tool calls.

  /** How often the gate was asked in log[lo..hi]. */
  function Gates(log: seq<Effect>, lo: nat, hi: nat): nat
    requires lo <= hi <= |log|
  {
    if lo == hi then 0 else Gates(log, lo, hi - 1) + if log[hi - 1].Gated? then 1 else 0
  }

  lemma GatesNext(log: seq<Effect>, lo: nat, hi: nat)
    requires lo <= hi < |log|
    ensures Gates(log, lo, hi + 1) == Gates(log, lo, hi) + if log[hi].Gated? then 1 else 0
  {
  }

  /** Whatever the gate was asked in log[lo..hi] it allowed, and no call or reply came in between. */
  ghost predicate AllRan(log: seq<Effect>, lo: nat, hi: nat) {
    hi <= |log| &&
    forall n :: lo <= n < hi ==>
                  && (log[n].Gated? ==> log[n].verdict.Allow?)
                  && !log[n].CallStarted? && !(log[n].Wrote? && log[n].kind == Reply)
  }

  /** A round with n calls still to gate and nothing held back, or over, or stopped. */
  predicate RoundAt(p: Place, n: int) {
    match p
    case Asking(_, left, h) => 0 < |left| == n && !h.blocked
    case Allowed(_, _, _, left, h) => |left| == n && !h.blocked
    case RowDue(_, _, left, h) => |left| == n && !h.blocked
    case RowCleared(_, _, left, h) => |left| == n && !h.blocked
    case RowKept(_, _, left, h) => |left| == n && !h.blocked
    case Top(_) => n == 0
    case Checked(_) => n == 0
    case Owing(_, _) => true
    case Out(_) => true
    case _ => false
  }

  lemma RoundNext(env: Environment, config: Config, p: Place, k: nat, e: Effect, n: int)
    requires Due(env, config, p, k) == Some(e) && RoundAt(p, n)
    requires !e.CallStarted? && !(e.Wrote? && e.kind == Reply) && (e.Gated? ==> e.verdict.Allow?)
    ensures RoundAt(Next(env, config, p, k), n - if e.Gated? then 1 else 0)
  {
  }

  lemma RoundBegins(env: Environment, config: Config, p: Place, k: nat, e: Effect)
    requires Due(env, config, p, k) == Some(e) && e.CallEnded?
    ensures p.Calling? && p.pulled >= |p.script.chunks| && p.script.end.Some?
    ensures p.script.end.value.toolCalls != [] ==>
              RoundAt(Next(env, config, p, k), |p.script.end.value.toolCalls|)
  {
  }

  /** The call started at j was answered at c with these tool calls. */
  ghost predicate AnsweredWithTools(log: seq<Effect>, j: nat, c: nat, calls: seq<ToolCall>) {
    && StreamedTo(log, j, c) && log[c].CallEnded? && log[j].script.end.Some?
    && log[j].script.end.value.toolCalls == calls != []
  }

  lemma OneStart(log: seq<Effect>, j: nat, j': nat, i: nat)
    requires StreamedTo(log, j, i) && StreamedTo(log, j', i)
    ensures j == j'
  {
    var a, b := log[j], log[j'];
    assert a.CallStarted? && b.CallStarted?;
  }

  lemma RoundStarts(
    env: Environment, config: Config, t: Turn, path: seq<Place>, j: nat, c: nat, calls: seq<ToolCall>)
    requires Played(env, config, t, path) && c + 1 < |path|
    requires AnsweredWithTools(t.log, j, t.entered + c, calls)
    ensures RoundAt(path[c + 1], |calls|)
  {
    var k := t.entered + c;
    PlayedAt(env, config, t, path, c);
    RoundBegins(env, config, path[c], k, t.log[k]);
    CallIsStreaming(env, config, t, path, c);
    OneStart(t.log, j, k - 1 - path[c].pulled, k);
  }

  lemma {:induction false} InRound(
    env: Environment, config: Config, t: Turn, path: seq<Place>, j: nat, c: nat, calls: seq<ToolCall>, i: nat)
    requires Played(env, config, t, path) && c < i < |path|
    requires AnsweredWithTools(t.log, j, t.entered + c, calls)
    requires t.entered + i <= |t.log| && AllRan(t.log, t.entered + c + 1, t.entered + i)
    ensures RoundAt(path[i], |calls| - Gates(t.log, t.entered + c + 1, t.entered + i))
    decreases i
  {
    var k := t.entered + i - 1;
    if i == c + 1 {
      RoundStarts(env, config, t, path, j, c, calls);
    } else {
      PlayedAt(env, config, t, path, i - 1);
      InRound(env, config, t, path, j, c, calls, i - 1);
      GatesNext(t.log, t.entered + c + 1, k);
      RoundNext(env, config, path[i - 1], k, t.log[k], |calls| - Gates(t.log, t.entered + c + 1, k));
    }
  }

  /** What the loop records of a tool call: a success of a tool that is not silent. */
  predicate ShowsARow(reply: ToolReply) {
    reply.content.Some? && !reply.isError && !reply.silent
  }

  lemma RowDueFrom(env: Environment, config: Config, p: Place, k: nat, e: Effect, q: Place)
    requires Due(env, config, p, k) == Some(e) && Next(env, config, p, k) == q && q.RowDue?
    ensures e.Dispatched? && ShowsARow(env.tool(k)) && q.summary == env.tool(k).summary
  {
  }

  lemma ChecksAt(env: Environment, config: Config, p: Place, k: nat, e: Effect)
    requires Due(env, config, p, k) == Some(e) && e.Lease?
    ensures p.Top? || p.Spoken? || p.RowDue? || p.Blocked?
    ensures p.Top? && e.reply != Lost ==> Next(env, config, p, k) == Checked(p.c)
  {
  }

  lemma CheckedGoesOn(env: Environment, config: Config, p: Place, k: nat)
    requires p.Checked?
    ensures Due(env, config, p, k).Some?
    ensures var e := Due(env, config, p, k).value;
      if CeilingMet(config, p.c.calls, p.c.metered) then e.Wrote? && e.kind == Reply else e.CallStarted?
  {
  }

  /** After a round whose calls all ran, the loop goes on: once the last call's row is dealt with,
      the next lease check that finds the room held is followed by another model call, or, if a
      ceiling is met, by the reply. */
  lemma RoundGoesOn(
    env: Environment, config: Config, t: Turn, path: seq<Place>, j: nat, c: nat, calls: seq<ToolCall>, i: nat)
    requires Played(env, config, t, path) && c + 1 < i && i + 1 < |path|
    requires AnsweredWithTools(t.log, j, t.entered + c, calls)
    requires t.entered + i < |t.log| && AllRan(t.log, t.entered + c + 1, t.entered + i)
    requires Gates(t.log, t.entered + c + 1, t.entered + i) == |calls|
    requires t.log[t.entered + i].Lease? && t.log[t.entered + i].reply != Lost
    requires !(t.log[t.entered + i - 1].Dispatched? && ShowsARow(env.tool(t.entered + i - 1)))
    ensures t.entered + i + 1 < t.loopEnd
    ensures var e := t.log[t.entered + i + 1];
      if AtCeiling(config, t, i + 1) then e.Wrote? && e.kind == Reply else e.CallStarted?
  {
    var k := t.entered + i;
    InRound(env, config, t, path, j, c, calls, i);
    PlayedAt(env, config, t, path, i);
    ChecksAt(env, config, path[i], k, t.log[k]);
    PlayedAt(env, config, t, path, i - 1);
    if path[i].RowDue? {
      RowDueFrom(env, config, path[i - 1], k - 1, t.log[k - 1], path[i]);
    }
    TopGoesOn(env, config, t, path, i);
  }

  /** Wherever the loop is about to begin a round and the check finds the room held. */
  lemma TopGoesOn(env: Environment, config: Config, t: Turn, path: seq<Place>, i: nat)
    requires Played(env, config, t, path) && i + 1 < |path| && path[i].Top?
    requires t.log[t.entered + i].Lease? ==> t.log[t.entered + i].reply != Lost
    ensures t.entered + i + 1 < t.loopEnd
    ensures var e := t.log[t.entered + i + 1];
      if AtCeiling(config, t, i + 1) then e.Wrote? && e.kind == Reply else e.CallStarted?
  {
    var k := t.entered + i;
    PlayedAt(env, config, t, path, i);
    ChecksAt(env, config, path[i], k, t.log[k]);
    assert path[i + 1].Checked?;
    assert i + 2 < |path|;
    PlayedAt(env, config, t, path, i + 1);
    CheckedGoesOn(env, config, path[i + 1], k + 1);
    ContextCounts(env, config, t, path, i + 1);
  }

  // Ways out.

  /** What makes a run leave this way, at position k of its log. */
  predicate Cause(env: Environment, log: seq<Effect>, from: nat, exit: Exit, k: nat) {
    && k < |log|
    && match exit
       case Superseded => log[k] == Lease(Lost)
       case Ended => log[k].Emitted? && Final(log[k].event) && !env.abandons(k)
       case Abandoned => log[k].Emitted? && env.abandons(k)
       case Threw =>
         || log[k].CallFaulted?
         || (log[k].Gated? && log[k].verdict.GateThrows?)
         || (log[k].Dispatched? && env.tool(k).content.None?)
         || (log[k].Wrote? && !log[k].ok && (log[k].kind == Reply || log[k].kind == Preamble))
         || (log[k].Lease? && log[k].reply != Lost && from < k && log[k - 1].Dispatched?
             && ShowsARow(env.tool(k - 1)) && env.tool(k - 1).summary.None?)
  }

  /** Nothing but the bill follows. */
  predicate OnlySettles(log: seq<Effect>, lo: nat, hi: nat) {
    hi <= |log| && forall n :: lo <= n < hi ==> log[n].Debited? || log[n].CallAborted?
  }

  lemma OutFrom(env: Environment, config: Config, p: Place, k: nat, e: Effect, exit: Exit)
    requires Due(env, config, p, k) == Some(e)
    requires var q := Next(env, config, p, k); q == Out(exit) || (q.Owing? && q.exit == exit)
    ensures (p.Owing? && p.exit == exit && e.Debited?) || (p.Aborting? && exit == Abandoned && e.CallAborted?)
            || CauseAt(env, p, exit, e, k)
  {
  }

  predicate CauseAt(env: Environment, p: Place, exit: Exit, e: Effect, k: nat) {
    match exit
    case Superseded => e == Lease(Lost)
    case Ended => e.Emitted? && Final(e.event) && !env.abandons(k)
    case Abandoned => e.Emitted? && env.abandons(k)
    case Threw =>
      || e.CallFaulted?
      || (e.Gated? && e.verdict.GateThrows?)
      || (e.Dispatched? && env.tool(k).content.None?)
      || (e.Wrote? && !e.ok && (e.kind == Reply || e.kind == Preamble))
      || (e.Lease? && e.reply != Lost && p.RowDue? && p.summary.None?)
  }

  lemma AbortingFrom(env: Environment, config: Config, p: Place, k: nat, e: Effect)
    requires Due(env, config, p, k) == Some(e) && Next(env, config, p, k).Aborting?
    ensures e.Emitted? && env.abandons(k)
  {
  }

  /** Every way out has its cause in the log, followed by nothing but the bill. */
  lemma ExitHasItsCause(env: Environment, config: Config, t: Turn, path: seq<Place>)
    requires Played(env, config, t, path)
    ensures exists k: nat ::
      t.entered <= k < t.loopEnd && Cause(env, t.log, t.entered, t.exit, k) && OnlySettles(t.log, k + 1, t.loopEnd)
  {
    LeavingHasItsCause(env, config, t, path, |path| - 1, t.exit);
  }

  lemma {:induction false} LeavingHasItsCause(
    env: Environment, config: Config, t: Turn, path: seq<Place>, i: nat, exit: Exit)
    requires Played(env, config, t, path) && i < |path|
    requires path[i] == Out(exit) || (path[i].Owing? && path[i].exit == exit)
             || (path[i].Aborting? && exit == Abandoned)
    ensures t.entered + i <= |t.log|
    ensures exists k: nat ::
      && t.entered <= k < t.entered + i && Cause(env, t.log, t.entered, exit, k)
      && OnlySettles(t.log, k + 1, t.entered + i)
  {
    assert i > 0;
    var k := t.entered + i - 1;
    PlayedAt(env, config, t, path, i - 1);
    if path[i].Aborting? {
      AbortingFrom(env, config, path[i - 1], k, t.log[k]);
      assert Cause(env, t.log, t.entered, exit, k) && OnlySettles(t.log, k + 1, t.entered + i);
    } else {
      OutFrom(env, config, path[i - 1], k, t.log[k], exit);
      if path[i - 1].Owing? || path[i - 1].Aborting? {
        LeavingHasItsCause(env, config, t, path, i - 1, exit);
        var j: nat :| t.entered <= j < k && Cause(env, t.log, t.entered, exit, j) && OnlySettles(t.log, j + 1, k);
        assert OnlySettles(t.log, j + 1, t.entered + i);
      } else {
        CauseIsLogged(env, config, t, path, i - 1, exit);
        assert Cause(env, t.log, t.entered, exit, k) && OnlySettles(t.log, k + 1, t.entered + i);
      }
    }
  }

  lemma CauseIsLogged(env: Environment, config: Config, t: Turn, path: seq<Place>, i: nat, exit: Exit)
    requires Played(env, config, t, path) && i + 1 < |path| && t.entered + i < |t.log|
    requires CauseAt(env, path[i], exit, t.log[t.entered + i], t.entered + i)
    ensures Cause(env, t.log, t.entered, exit, t.entered + i)
  {
    if path[i].RowDue? {
      assert i > 0;
      var k := t.entered + i - 1;
      PlayedAt(env, config, t, path, i - 1);
      RowDueFrom(env, config, path[i - 1], k, t.log[k], path[i]);
    }
  }
}
