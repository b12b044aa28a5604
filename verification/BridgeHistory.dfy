/** The bridge's run, told by its events alone: whose turn it was to dial, which connections were
    admitted, which embodiments were given a reason to stay, who is advancing on what. Nothing here
    looks at the bridge's state or its flags; the theorems say that the state agrees. */
module BridgeHistory {
  import opened Wrappers
  import SerialChain
  import opened Bridge

  /** How far one establish has come. */
  datatype Course =
    | NotYet
    | Waits
    | Dials(conn: nat)
    | Open(conn: nat)
    | Done(result: Option<nat>)

  /** What each establish was asked for, in the order of the calls. */
  function Asked(es: seq<Event>): seq<bool> {
    if es == [] then []
    else Asked(es[..|es| - 1]) + if es[|es| - 1].Establish? then [es[|es| - 1].persist] else []
  }

  predicate Persists(es: seq<Event>, k: nat) {
    k < |Asked(es)| && Asked(es)[k]
  }

  /** First come, first served: k waits, and every establish before it is done. */
  ghost predicate Turn(es: seq<Event>, k: nat)
    decreases |es|, 2
  {
    CourseOf(es, k) == Waits && forall j: nat :: j < k ==> CourseOf(es, j).Done?
  }

  ghost function CourseOf(es: seq<Event>, k: nat): Course
    decreases |es|, 1
  {
    if es == [] then NotYet
    else
      var before := es[..|es| - 1];
      var p := CourseOf(before, k);
      match es[|es| - 1]
      case Establish(_) => if k == |Asked(before)| then Waits else p
      case Proceed(j) =>
        if j != k || !Turn(before, k) then p
        else if ActiveAfter(before).Some? then Done(ActiveAfter(before))
        else Dials(Dialed(before))
      case Connected(j) => if j == k && p.Dials? then Open(p.conn) else p
      case ConnectFailed(j) => if j == k && p.Dials? then Done(None) else p
      case Register(j) =>
        if j == k && p.Open? then Done(if SupersededIn(before, p.conn) then None else Some(p.conn)) else p
      case _ => p
  }

  /** How many connections were created. */
  ghost function Dialed(es: seq<Event>): nat
    decreases |es|, 1
  {
    if es == [] then 0
    else
      var before, e := es[..|es| - 1], es[|es| - 1];
      Dialed(before) + if e.Proceed? && Turn(before, e.attempt) && ActiveAfter(before).None? then 1 else 0
  }

  /** The server told this connection that it was superseded. */
  ghost predicate SupersededIn(es: seq<Event>, c: nat)
    decreases |es|, 1
  {
    && es != []
    && var before := es[..|es| - 1];
       SupersededIn(before, c) || (es[|es| - 1] == OnSuperseded(c) && c < Dialed(before))
  }

  /** Its socket closed. */
  ghost predicate ClosedIn(es: seq<Event>, c: nat)
    decreases |es|, 1
  {
    && es != []
    && var before := es[..|es| - 1];
       ClosedIn(before, c) || (es[|es| - 1] == OnClosed(c) && c < Dialed(before))
  }

  /** Its socket closed before it was registered. */
  ghost predicate ClosedEarlyIn(es: seq<Event>, c: nat)
    decreases |es|, 1
  {
    && es != []
    && var before := es[..|es| - 1];
       || ClosedEarlyIn(before, c)
       || (es[|es| - 1] == OnClosed(c) && c < Dialed(before) && !AdmittedIn(before, c))
  }

  /** The event registers this connection as the companion's embodiment. */
  ghost predicate Admits(es: seq<Event>, e: Event, c: nat)
    decreases |es|, 2
  {
    e.Register? && CourseOf(es, e.attempt) == Open(c) && !SupersededIn(es, c)
  }

  ghost predicate AdmittedIn(es: seq<Event>, c: nat)
    decreases |es|, 1
  {
    && es != []
    && var before := es[..|es| - 1];
       AdmittedIn(before, c) || Admits(before, es[|es| - 1], c)
  }

  /** The embodiment a task is advancing its mission on. */
  ghost function TaskOn(es: seq<Event>, t: nat): Option<nat>
    decreases |es|, 1
  {
    if es == [] then None
    else
      var before := es[..|es| - 1];
      var p := TaskOn(before, t);
      match es[|es| - 1]
      case Advance(u, c) => if u == t && p.None? && AdmittedIn(before, c) then Some(c) else p
      case AdvanceLive(u) => if u == t then None else p
      case AdvanceSkipped(u) => if u == t then None else p
      case AdvanceFailed(u) => if u == t then None else p
      case _ => p
  }

  /** A reason to stay: a live advance on it, a user summon that reused it, or one that opened it. */
  ghost predicate GivesReason(es: seq<Event>, e: Event, c: nat)
    decreases |es|, 3
  {
    match e
    case AdvanceLive(t) => TaskOn(es, t) == Some(c)
    case Proceed(k) => Turn(es, k) && Persists(es, k) && ActiveAfter(es) == Some(c)
    case Register(k) => Admits(es, e, c) && Persists(es, k)
    case _ => false
  }

  ghost predicate HasReason(es: seq<Event>, c: nat)
    decreases |es|, 1
  {
    && es != []
    && var before := es[..|es| - 1];
       HasReason(before, c) || GivesReason(before, es[|es| - 1], c)
  }

  /** The last advance out of an embodiment finds its mission gone, and nothing ever gave the
      embodiment a reason to stay. */
  ghost predicate Retracts(es: seq<Event>, e: Event, c: nat)
    decreases |es|, 3
  {
    && e.AdvanceSkipped? && TaskOn(es, e.task) == Some(c)
    && (forall u: nat :: u != e.task ==> TaskOn(es, u) != Some(c))
    && !HasReason(es, c)
  }

  /** The registered embodiment. */
  ghost function ActiveAfter(es: seq<Event>): Option<nat>
    decreases |es|, 1
  {
    if es == [] then None
    else
      var before, e := es[..|es| - 1], es[|es| - 1];
      var p := ActiveAfter(before);
      if e.Register? && CourseOf(before, e.attempt).Open? && Admits(before, e, CourseOf(before, e.attempt).conn)
      then Some(CourseOf(before, e.attempt).conn)
      else if p.Some? && (e == OnSuperseded(p.value) || e == OnClosed(p.value) || Retracts(before, e, p.value))
      then None
      else p
  }

  ghost predicate AttemptFollows(es: seq<Event>, s: State, k: nat) {
    && |s.attempts| == |s.chain.links|
    && match CourseOf(es, k)
       case NotYet => k >= |s.attempts|
       case Waits =>
         k < |s.attempts| && s.chain.links[k].phase == SerialChain.Waiting
         && s.attempts[k] == Attempt(Persists(es, k), None, false, None)
       case Dials(c) =>
         k < |s.attempts| && s.chain.links[k].phase == SerialChain.Running
         && s.attempts[k] == Attempt(Persists(es, k), Some(c), false, None)
       case Open(c) =>
         k < |s.attempts| && s.chain.links[k].phase == SerialChain.Running
         && s.attempts[k] == Attempt(Persists(es, k), Some(c), true, None)
       case Done(r) =>
         k < |s.attempts| && s.chain.links[k].phase == SerialChain.Settled
         && s.attempts[k].persist == Persists(es, k) && s.attempts[k].result == r
  }

  ghost predicate AttemptsFollow(es: seq<Event>, s: State) {
    |s.attempts| == |Asked(es)| && forall k: nat :: AttemptFollows(es, s, k)
  }

  ghost predicate RoomFollows(es: seq<Event>, s: State) {
    && s.conns == Dialed(es)
    && s.active == ActiveAfter(es)
    && (forall c: nat :: c in s.superseded <==> SupersededIn(es, c))
    && (forall c: nat :: c in s.dropped <==> ClosedIn(es, c))
    && (forall c: nat :: c in s.droppedEarly <==> ClosedEarlyIn(es, c))
    && (forall c: nat :: c in s.embodiments <==> AdmittedIn(es, c))
  }

  ghost predicate TaskFollows(es: seq<Event>, s: State, t: nat) {
    TaskOn(es, t) == if t in s.advances then Some(s.advances[t]) else None
  }

  ghost predicate ReasonsFollow(es: seq<Event>, s: State) {
    && (forall t: nat :: TaskFollows(es, s, t))
    && (forall c: nat :: c in s.embodiments ==> (s.embodiments[c].justified <==> HasReason(es, c)))
    && (forall c: nat :: HasReason(es, c) ==> c in s.embodiments)
  }

  lemma ReadyIsTurn(es: seq<Event>, s: State, k: nat)
    requires Inv(s) && AttemptsFollow(es, s)
    ensures SerialChain.Ready(s.chain, k) <==> Turn(es, k)
  {
    SerialChain.ReadyIffFirstInLine(s.chain, k);
    assert AttemptFollows(es, s, k);
    forall j: nat | j < k
      ensures CourseOf(es, j).Done? <==> j < |s.attempts| && s.chain.links[j].phase == SerialChain.Settled
    {
      assert AttemptFollows(es, s, j);
    }
  }

  lemma CanRegister(es: seq<Event>, s: State, k: nat)
    requires Inv(s) && AttemptsFollow(es, s)
    ensures Enabled(s, Register(k)) <==> CourseOf(es, k).Open?
    ensures CourseOf(es, k).Open? ==> s.attempts[k].conn == Some(CourseOf(es, k).conn)
  {
    assert AttemptFollows(es, s, k);
  }

  /** What the state must know for one more event to be read the same way. */
  ghost predicate Known(es: seq<Event>, s: State) {
    && Inv(s) && s.flagged <= s.superseded
    && AttemptsFollow(es, s) && RoomFollows(es, s) && ReasonsFollow(es, s)
  }

  /** A connection that stands to be registered was flagged exactly if it was superseded. */
  lemma CanAdmit(es: seq<Event>, s: State, k: nat, c: nat)
    requires Known(es, s)
    ensures Admits(es, Register(k), c) <==>
            Enabled(s, Register(k)) && s.attempts[k].conn == Some(c) && c !in s.flagged
  {
    CanRegister(es, s, k);
    assert AttemptFollows(es, s, k);
  }

  lemma CanRetract(es: seq<Event>, s: State, t: nat, c: nat)
    requires Known(es, s) && t in s.advances && s.advances[t] == c
    ensures Retracts(es, AdvanceSkipped(t), c) <==>
            s.embodiments[c].holders == 1 && !s.embodiments[c].justified
  {
    assert TaskFollows(es, s, t);
    InFlightShrinks(s.advances, t, c);
    var others := TasksOn(s.advances - {t}, c);
    if others == {} {
      forall u: nat | u != t
        ensures TaskOn(es, u) != Some(c)
      {
        assert TaskFollows(es, s, u);
        assert u !in others;
      }
    } else {
      var u :| u in others;
      assert TaskFollows(es, s, u);
    }
  }

  lemma OneMoreAsked(es: seq<Event>, e: Event)
    ensures Asked(es + [e]) == Asked(es) + if e.Establish? then [e.persist] else []
  {
    assert (es + [e])[..|es|] == es;
  }

  lemma StillPersists(es: seq<Event>, e: Event, k: nat)
    ensures k < |Asked(es)| ==> Persists(es + [e], k) == Persists(es, k)
  {
    OneMoreAsked(es, e);
  }

  lemma ProceedFollows(es: seq<Event>, s: State, k: nat)
    requires Known(es, s)
    ensures AttemptFollows(es + [Proceed(k)], Step(s, Proceed(k)), k)
  {
    assert (es + [Proceed(k)])[..|es|] == es;
    StillPersists(es, Proceed(k), k);
    assert AttemptFollows(es, s, k);
    ReadyIsTurn(es, s, k);
  }

  lemma RegisterFollows(es: seq<Event>, s: State, k: nat)
    requires Known(es, s)
    ensures AttemptFollows(es + [Register(k)], Step(s, Register(k)), k)
  {
    assert (es + [Register(k)])[..|es|] == es;
    StillPersists(es, Register(k), k);
    assert AttemptFollows(es, s, k);
    CanRegister(es, s, k);
    if Enabled(s, Register(k)) {
      CanAdmit(es, s, k, s.attempts[k].conn.value);
    }
  }

  lemma OthersFollow(es: seq<Event>, e: Event, s: State, k: nat)
    requires AttemptsFollow(es, s)
    requires !(e == Proceed(k) || e == Register(k) || e == Connected(k) || e == ConnectFailed(k) || e.Establish?)
    ensures AttemptFollows(es + [e], Step(s, e), k)
  {
    assert (es + [e])[..|es|] == es;
    StillPersists(es, e, k);
    assert AttemptFollows(es, s, k);
    StepSparesOthers(s, e, k);
  }

  /** An event of one establish leaves the others as they are. */
  lemma StepSparesOthers(s: State, e: Event, k: nat)
    requires |s.attempts| == |s.chain.links|
    requires !(e == Proceed(k) || e == Register(k) || e == Connected(k) || e == ConnectFailed(k) || e.Establish?)
    ensures var s' := Step(s, e);
      && |s'.attempts| == |s'.chain.links| == |s.attempts|
      && (k < |s.attempts| ==>
            s'.attempts[k] == s.attempts[k] && s'.chain.links[k].phase == s.chain.links[k].phase)
  {
  }

  lemma DialFollows(es: seq<Event>, e: Event, s: State, k: nat)
    requires AttemptsFollow(es, s) && (e == Connected(k) || e == ConnectFailed(k))
    ensures AttemptFollows(es + [e], Step(s, e), k)
  {
    assert (es + [e])[..|es|] == es;
    StillPersists(es, e, k);
    assert AttemptFollows(es, s, k);
  }

  lemma EstablishFollows(es: seq<Event>, persist: bool, s: State, k: nat)
    requires AttemptsFollow(es, s)
    ensures AttemptFollows(es + [Establish(persist)], Step(s, Establish(persist)), k)
  {
    var more := es + [Establish(persist)];
    assert more[..|es|] == es;
    OneMoreAsked(es, Establish(persist));
    StillPersists(es, Establish(persist), k);
    assert AttemptFollows(es, s, k);
    assert k == |Asked(es)| ==> Persists(more, k) == persist;
  }

  lemma OneMoreAttempt(es: seq<Event>, e: Event, s: State, k: nat)
    requires Known(es, s)
    ensures AttemptFollows(es + [e], Step(s, e), k)
  {
    if e == Proceed(k) {
      ProceedFollows(es, s, k);
    } else if e == Register(k) {
      RegisterFollows(es, s, k);
    } else if e == Connected(k) || e == ConnectFailed(k) {
      DialFollows(es, e, s, k);
    } else if e.Establish? {
      EstablishFollows(es, e.persist, s, k);
    } else {
      OthersFollow(es, e, s, k);
    }
  }

  lemma OneMoreAttempts(es: seq<Event>, e: Event, s: State)
    requires Known(es, s)
    ensures AttemptsFollow(es + [e], Step(s, e))
  {
    OneMoreAsked(es, e);
    forall k: nat
      ensures AttemptFollows(es + [e], Step(s, e), k)
    {
      OneMoreAttempt(es, e, s, k);
    }
    assert AttemptFollows(es + [e], Step(s, e), |Step(s, e).attempts|);
  }

  lemma ProceedRoom(es: seq<Event>, e: Event, s: State)
    requires Known(es, s) && e.Proceed?
    ensures RoomFollows(es + [e], Step(s, e))
  {
    assert (es + [e])[..|es|] == es;
    ReadyIsTurn(es, s, e.attempt);
  }

  lemma RegisterRoom(es: seq<Event>, e: Event, s: State)
    requires Known(es, s) && e.Register?
    ensures RoomFollows(es + [e], Step(s, e))
  {
    assert (es + [e])[..|es|] == es;
    CanRegister(es, s, e.attempt);
    forall c: nat
      ensures Admits(es, e, c) <==> Enabled(s, e) && s.attempts[e.attempt].conn == Some(c) && c !in s.flagged
    {
      CanAdmit(es, s, e.attempt, c);
    }
  }

  lemma SkipRoom(es: seq<Event>, e: Event, s: State)
    requires Known(es, s) && e.AdvanceSkipped?
    ensures RoomFollows(es + [e], Step(s, e))
  {
    assert (es + [e])[..|es|] == es;
    assert TaskFollows(es, s, e.task);
    if e.task in s.advances {
      CanRetract(es, s, e.task, s.advances[e.task]);
    }
  }

  lemma OtherRoom(es: seq<Event>, e: Event, s: State)
    requires Known(es, s) && !e.Proceed? && !e.Register? && !e.AdvanceSkipped?
    ensures RoomFollows(es + [e], Step(s, e))
  {
    assert (es + [e])[..|es|] == es;
  }

  lemma OneMoreRoom(es: seq<Event>, e: Event, s: State)
    requires Known(es, s)
    ensures RoomFollows(es + [e], Step(s, e))
  {
    match e
    case Proceed(_) => ProceedRoom(es, e, s);
    case Register(_) => RegisterRoom(es, e, s);
    case AdvanceSkipped(_) => SkipRoom(es, e, s);
    case _ => OtherRoom(es, e, s);
  }

  lemma OneMoreTask(es: seq<Event>, e: Event, s: State, t: nat)
    requires Known(es, s)
    ensures TaskFollows(es + [e], Step(s, e), t)
  {
    assert (es + [e])[..|es|] == es;
    assert TaskFollows(es, s, t);
  }

  lemma SeatsStay(s: State, e: Event, c: nat)
    requires c in s.embodiments
    ensures c in Step(s, e).embodiments
  {
  }

  /** Only a registered embodiment is ever given a reason. */
  lemma ReasonNeedsASeat(es: seq<Event>, e: Event, s: State, c: nat)
    requires Known(es, s) && GivesReason(es, e, c)
    ensures c in Step(s, e).embodiments
  {
    match e
    case AdvanceLive(t) =>
      assert TaskFollows(es, s, t);
      SeatsStay(s, e, c);
    case Proceed(k) =>
      SeatsStay(s, e, c);
    case Register(k) =>
      CanAdmit(es, s, k, c);
  }

  lemma OneMoreSeated(es: seq<Event>, e: Event, s: State, c: nat)
    requires Known(es, s) && HasReason(es + [e], c)
    ensures c in Step(s, e).embodiments
  {
    assert (es + [e])[..|es|] == es;
    if HasReason(es, c) {
      SeatsStay(s, e, c);
    } else {
      ReasonNeedsASeat(es, e, s, c);
    }
  }

  lemma OneMoreReason(es: seq<Event>, e: Event, s: State, c: nat)
    requires Known(es, s)
    ensures c in Step(s, e).embodiments ==> (Step(s, e).embodiments[c].justified <==> HasReason(es + [e], c))
  {
    assert (es + [e])[..|es|] == es;
    match e
    case Proceed(j) =>
      ReadyIsTurn(es, s, j);
      assert AttemptFollows(es, s, j);
    case Register(j) =>
      CanAdmit(es, s, j, c);
      CanRegister(es, s, j);
      assert AttemptFollows(es, s, j);
    case AdvanceLive(t) => assert TaskFollows(es, s, t);
    case _ =>
  }

  lemma OneMoreReasons(es: seq<Event>, e: Event, s: State)
    requires Known(es, s)
    ensures ReasonsFollow(es + [e], Step(s, e))
  {
    forall t: nat
      ensures TaskFollows(es + [e], Step(s, e), t)
    {
      OneMoreTask(es, e, s, t);
    }
    forall c: nat
      ensures c in Step(s, e).embodiments ==> (Step(s, e).embodiments[c].justified <==> HasReason(es + [e], c))
      ensures HasReason(es + [e], c) ==> c in Step(s, e).embodiments
    {
      OneMoreReason(es, e, s, c);
      if HasReason(es + [e], c) {
        OneMoreSeated(es, e, s, c);
      }
    }
  }

  lemma {:induction false} RunIsKnown(es: seq<Event>)
    ensures Known(es, Run(IDLE, es))
  {
    RunKeepsInv(es);
    FlaggedWereSuperseded(es);
    if es == [] {
      assert forall k: nat :: AttemptFollows(es, IDLE, k);
      assert forall t: nat :: TaskFollows(es, IDLE, t);
    } else {
      var before, e := es[..|es| - 1], es[|es| - 1];
      assert before + [e] == es;
      RunIsKnown(before);
      OneMoreAttempts(before, e, Run(IDLE, before));
      OneMoreRoom(before, e, Run(IDLE, before));
      OneMoreReasons(before, e, Run(IDLE, before));
    }
  }

  /** The bridge's room, over every run: how many connections it dialed, which one is registered,
      and which were admitted, superseded and dropped, all as the events say. */
  lemma RoomIsItsHistory(es: seq<Event>, c: nat)
    ensures var s := Run(IDLE, es);
      && s.conns == Dialed(es) && s.active == ActiveAfter(es)
      && (c in s.embodiments <==> AdmittedIn(es, c)) && (c in s.superseded <==> SupersededIn(es, c))
      && (c in s.dropped <==> ClosedIn(es, c)) && (c in s.droppedEarly <==> ClosedEarlyIn(es, c))
  {
    RunIsKnown(es);
  }

  /** What each establish came to, over every run. The promise chain is a queue: an establish gets
      its turn exactly when all before it are done, whatever entries were cleared meanwhile. */
  lemma EstablishesAreServedInOrder(es: seq<Event>, k: nat)
    ensures var s := Run(IDLE, es);
      && |s.attempts| == |s.chain.links| == |Asked(es)|
      && (Enabled(s, Proceed(k)) <==> Turn(es, k))
      && (Dialing(s, k) <==> CourseOf(es, k).Dials? || CourseOf(es, k).Open?)
      && (CourseOf(es, k).Done? <==> k < |s.attempts| && s.chain.links[k].phase == SerialChain.Settled)
      && (CourseOf(es, k).Done? ==> s.attempts[k].result == CourseOf(es, k).result)
  {
    RunIsKnown(es);
    ReadyIsTurn(es, Run(IDLE, es), k);
    assert AttemptFollows(es, Run(IDLE, es), k);
  }

  /** An establish whose turn comes while an embodiment is registered returns that one and dials
      nothing; otherwise it dials the next connection and has no result yet. */
  lemma ReuseReturnsTheRegistered(es: seq<Event>, k: nat)
    requires Turn(es, k)
    ensures var s, s' := Run(IDLE, es), Run(IDLE, es + [Proceed(k)]);
      && k < |s'.attempts| == |s'.chain.links| && s'.active == s.active
      && if s.active.Some?
         then s'.conns == s.conns && s'.chain.links[k].phase == SerialChain.Settled && s'.attempts[k].result == s.active
         else s'.conns == s.conns + 1 && Dialing(s', k) && s'.attempts[k].conn == Some(s.conns)
  {
    RunIsKnown(es);
    RunIsKnown(es + [Proceed(k)]);
    assert (es + [Proceed(k)])[..|es|] == es;
    assert AttemptFollows(es + [Proceed(k)], Run(IDLE, es + [Proceed(k)]), k);
  }

  /** Over every run: an embodiment is justified exactly when a live advance on it, or a user
      summon that reused or opened it, gave it a reason to stay. */
  lemma JustifiedIffGivenAReason(es: seq<Event>, c: nat)
    ensures var s := Run(IDLE, es);
      c in s.embodiments && s.embodiments[c].justified <==> HasReason(es, c)
  {
    RunIsKnown(es);
  }

  /** Over every run: the advances in flight are those begun and not ended since. */
  lemma AdvancesAreThoseBegun(es: seq<Event>, t: nat)
    ensures var s := Run(IDLE, es); TaskOn(es, t) == if t in s.advances then Some(s.advances[t]) else None
  {
    RunIsKnown(es);
    assert TaskFollows(es, Run(IDLE, es), t);
  }

  lemma AfterAnAdvance(es: seq<Event>, e: Event)
    requires e.AdvanceSkipped? || e.AdvanceLive? || e.AdvanceFailed?
    ensures var p := ActiveAfter(es);
      ActiveAfter(es + [e]) == if p.Some? && Retracts(es, e, p.value) then None else p
  {
    assert (es + [e])[..|es|] == es;
  }

  /** The silent retraction. A skipped advance takes the registered embodiment away if and only if
      it was on that embodiment, no other advance is in flight there, and nothing in the whole run
      gave the embodiment a reason to stay. A live or a failed advance never does. */
  lemma RetractionsAreWarranted(es: seq<Event>, t: nat, e: Event)
    requires e == AdvanceSkipped(t) || e == AdvanceLive(t) || e == AdvanceFailed(t)
    ensures var s, s' := Run(IDLE, es), Run(IDLE, es + [e]);
      if e.AdvanceSkipped? && s.active.Some? && TaskOn(es, t) == s.active
         && (forall u: nat :: u != t ==> TaskOn(es, u) != s.active) && !HasReason(es, s.active.value)
      then s'.active == None
      else s'.active == s.active
  {
    RoomIsItsHistory(es, 0);
    RoomIsItsHistory(es + [e], 0);
    AfterAnAdvance(es, e);
  }
}
