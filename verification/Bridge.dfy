/** The Discord bridge's embodiment lifecycle for one user. Every event below is one
    stretch of code that runs to completion between two awaits; connections and their
    embodiments are identified by the order the connections were created in. */
module Bridge {
  import opened Wrappers
  import opened SerialChain

  datatype Attempt = Attempt(persist: bool, conn: Option<nat>, resolved: bool, result: Option<nat>)

  datatype Embodiment = Embodiment(holders: int, justified: bool)

  /** `active`, the establish chain and the embodiments are the bridge's own state, and
      `flagged` its per-connection superseded-during-connect flag. The rest is history:
      which connections were ever superseded, dropped, or dropped before they were registered. */
  datatype State = State(
    chain: Chain,
    attempts: seq<Attempt>,
    conns: nat,
    active: Option<nat>,
    embodiments: map<nat, Embodiment>,
    flagged: set<nat>,
    advances: map<nat, nat>,
    superseded: set<nat>,
    dropped: set<nat>,
    droppedEarly: set<nat>)

  const IDLE := State(EMPTY_CHAIN, [], 0, None, map[], {}, map[], {}, {}, {})

  datatype Event =
    | Establish(persist: bool)
    | Proceed(attempt: nat)
    | Connected(attempt: nat)
    | ConnectFailed(attempt: nat)
    | Register(attempt: nat)
    | Forget(attempt: nat)
    | OnSuperseded(conn: nat)
    | OnClosed(conn: nat)
    | Advance(task: nat, conn: nat)
    | AdvanceLive(task: nat)
    | AdvanceSkipped(task: nat)
    | AdvanceFailed(task: nat)

  /** The embodiment has a reason to stay. */
  function Justify(s: State, conn: nat): State
    requires conn in s.embodiments
  {
    s.(embodiments := s.embodiments[conn := s.embodiments[conn].(justified := true)])
  }

  /** Identity-guarded: only the registered connection can be torn down. */
  function Teardown(s: State, conn: nat): State {
    if s.active == Some(conn) then s.(active := None) else s
  }

  function SettleAttempt(s: State, k: nat, result: Option<nat>): State
    requires k < |s.attempts| == |s.chain.links|
  {
    s.(chain := SetPhase(s.chain, k, Settled), attempts := s.attempts[k := s.attempts[k].(result := result)])
  }

  predicate Dialing(s: State, k: nat) {
    k < |s.attempts| == |s.chain.links| && s.chain.links[k].phase == Running && s.attempts[k].conn.Some?
  }

  function TasksOn(advances: map<nat, nat>, conn: nat): set<nat> {
    set t | t in advances && advances[t] == conn
  }

  function InFlight(advances: map<nat, nat>, conn: nat): nat {
    |TasksOn(advances, conn)|
  }

  function EndAdvance(s: State, task: nat): State
    requires task in s.advances && s.advances[task] in s.embodiments
  {
    var conn := s.advances[task];
    var e := s.embodiments[conn];
    s.(advances := s.advances - {task},
    embodiments := s.embodiments[conn := e.(holders := e.holders - 1)])
  }

  predicate Enabled(s: State, e: Event) {
    match e
    case Establish(_) => true
    case Proceed(k) => |s.attempts| == |s.chain.links| && Ready(s.chain, k)
    case Connected(k) => Dialing(s, k) && !s.attempts[k].resolved
    case ConnectFailed(k) => Dialing(s, k) && !s.attempts[k].resolved
    case Register(k) => Dialing(s, k) && s.attempts[k].resolved
    case Forget(k) => true
    case OnSuperseded(conn) => conn < s.conns
    case OnClosed(conn) => conn < s.conns
    case Advance(t, conn) => t !in s.advances && conn in s.embodiments
    case AdvanceLive(t) => t in s.advances && s.advances[t] in s.embodiments
    case AdvanceSkipped(t) => t in s.advances && s.advances[t] in s.embodiments
    case AdvanceFailed(t) => t in s.advances && s.advances[t] in s.embodiments
  }

  function Step(s: State, e: Event): State {
    if !Enabled(s, e) then s else
    match e
    case Establish(persist) =>
      s.(chain := Launch(s.chain), attempts := s.attempts + [Attempt(persist, None, false, None)])
    case Proceed(k) =>
      if s.active.Some? then
        var s1 := SettleAttempt(s, k, s.active);
        if s.attempts[k].persist && s.active.value in s.embodiments then Justify(s1, s.active.value) else s1
      else
        s.(chain := SetPhase(s.chain, k, Running), conns := s.conns + 1,
        attempts := s.attempts[k := s.attempts[k].(conn := Some(s.conns))])
    case Connected(k) =>
      s.(attempts := s.attempts[k := s.attempts[k].(resolved := true)])
    case ConnectFailed(k) =>
      SettleAttempt(s, k, None)
    case Register(k) =>
      var conn := s.attempts[k].conn.value;
      if conn in s.flagged then SettleAttempt(s, k, None)
      else
        var s1 := SettleAttempt(s, k, Some(conn)).(active := Some(conn),
        embodiments := s.embodiments[conn := Embodiment(0, false)]);
        if s.attempts[k].persist then Justify(s1, conn) else s1
    case Forget(k) =>
      s.(chain := Clear(s.chain, k))
    case OnSuperseded(conn) =>
      var s1 := s.(superseded := s.superseded + {conn});
      if s.active.Some? then Teardown(s1, conn) else s1.(flagged := s.flagged + {conn})
    case OnClosed(conn) =>
      Teardown(s.(dropped := s.dropped + {conn},
      droppedEarly := if conn in s.embodiments then s.droppedEarly else s.droppedEarly + {conn}), conn)
    case Advance(t, conn) =>
      s.(advances := s.advances[t := conn],
      embodiments := s.embodiments[conn := s.embodiments[conn].(holders := s.embodiments[conn].holders + 1)])
    case AdvanceLive(t) =>
      Justify(EndAdvance(s, t), s.advances[t])
    case AdvanceFailed(t) =>
      EndAdvance(s, t)
    case AdvanceSkipped(t) =>
      var s1 := EndAdvance(s, t);
      var conn := s.advances[t];
      if s1.embodiments[conn].holders == 0 && !s1.embodiments[conn].justified then Teardown(s1, conn) else s1
  }

  function Run(s: State, es: seq<Event>): State {
    if es == [] then s else Step(Run(s, es[..|es| - 1]), es[|es| - 1])
  }

  ghost predicate DialsOk(s: State) {
    && |s.attempts| == |s.chain.links|
    && SerialChain.Inv(s.chain)
    && (forall k :: 0 <= k < |s.attempts| && s.chain.links[k].phase == Running ==>
          && s.attempts[k].conn.Some? && s.attempts[k].conn.value < s.conns
          && s.attempts[k].conn.value !in s.embodiments
          && s.active == None
          && (s.attempts[k].conn.value in s.superseded ==> s.attempts[k].conn.value in s.flagged))
  }

  ghost predicate RoomOk(s: State) {
    && (s.active.Some? ==> s.active.value in s.embodiments && s.active.value !in s.superseded
                           && (s.active.value in s.dropped ==> s.active.value in s.droppedEarly))
    && (forall c :: c in s.embodiments ==> c < s.conns)
    && (forall c :: c in s.superseded ==> c < s.conns)
    && s.droppedEarly <= s.dropped
    && (forall c :: c in s.dropped && c !in s.embodiments ==> c in s.droppedEarly)
  }

  ghost predicate HoldersOk(s: State) {
    && (forall t :: t in s.advances ==> s.advances[t] in s.embodiments)
    && (forall c :: c in s.embodiments ==> s.embodiments[c].holders == InFlight(s.advances, c))
  }

  ghost predicate Inv(s: State) {
    DialsOk(s) && RoomOk(s) && HoldersOk(s)
  }

  lemma InFlightGrows(advances: map<nat, nat>, t: nat, conn: nat, c: nat)
    requires t !in advances
    ensures InFlight(advances[t := conn], c) == InFlight(advances, c) + (if c == conn then 1 else 0)
  {
    assert TasksOn(advances[t := conn], c) == TasksOn(advances, c) + if c == conn then {t} else {};
  }

  lemma InFlightShrinks(advances: map<nat, nat>, t: nat, c: nat)
    requires t in advances
    ensures InFlight(advances - {t}, c) == InFlight(advances, c) - (if c == advances[t] then 1 else 0)
    ensures c == advances[t] ==> InFlight(advances, c) > 0
  {
    assert TasksOn(advances, c) == TasksOn(advances - {t}, c) + if c == advances[t] then {t} else {};
  }

  /** `holders` counts the advances in flight, through every step. */
  lemma EndAdvanceKeepsHolders(s: State, t: nat)
    requires HoldersOk(s) && t in s.advances
    ensures HoldersOk(EndAdvance(s, t))
  {
    forall c | c in s.embodiments
      ensures EndAdvance(s, t).embodiments[c].holders == InFlight(s.advances - {t}, c)
    {
      InFlightShrinks(s.advances, t, c);
    }
  }

  lemma AdvanceKeepsHolders(s: State, t: nat, conn: nat)
    requires HoldersOk(s) && Enabled(s, Advance(t, conn))
    ensures HoldersOk(Step(s, Advance(t, conn)))
  {
    forall c | c in s.embodiments
      ensures Step(s, Advance(t, conn)).embodiments[c].holders == InFlight(s.advances[t := conn], c)
    {
      InFlightGrows(s.advances, t, conn, c);
    }
  }

  lemma RegisterKeepsHolders(s: State, k: nat)
    requires HoldersOk(s) && DialsOk(s) && Enabled(s, Register(k))
    ensures HoldersOk(Step(s, Register(k)))
  {
    var conn := s.attempts[k].conn.value;
    assert TasksOn(s.advances, conn) == {};
  }

  lemma JustifyKeepsHolders(s: State, conn: nat)
    requires HoldersOk(s) && conn in s.embodiments
    ensures HoldersOk(Justify(s, conn))
  {
  }

  lemma SkipKeepsHolders(s: State, t: nat)
    requires HoldersOk(s) && Enabled(s, AdvanceSkipped(t))
    ensures HoldersOk(Step(s, AdvanceSkipped(t)))
  {
    EndAdvanceKeepsHolders(s, t);
    assert HoldersOk(EndAdvance(s, t));
  }

  lemma ProceedKeepsHolders(s: State, k: nat)
    requires HoldersOk(s) && DialsOk(s) && RoomOk(s) && Enabled(s, Proceed(k))
    ensures HoldersOk(Step(s, Proceed(k)))
  {
    if s.active.Some? {
      JustifyKeepsHolders(SettleAttempt(s, k, s.active), s.active.value);
    }
  }

  lemma StepKeepsHolders(s: State, e: Event)
    requires Inv(s)
    ensures HoldersOk(Step(s, e))
  {
    if Enabled(s, e) {
      match e
      case Advance(t, conn) => AdvanceKeepsHolders(s, t, conn);
      case AdvanceLive(t) =>
        EndAdvanceKeepsHolders(s, t);
        JustifyKeepsHolders(EndAdvance(s, t), s.advances[t]);
      case AdvanceFailed(t) => EndAdvanceKeepsHolders(s, t);
      case AdvanceSkipped(t) => SkipKeepsHolders(s, t);
      case Register(k) => RegisterKeepsHolders(s, k);
      case Proceed(k) => ProceedKeepsHolders(s, k);
      case _ =>
    }
  }

  lemma ProceedKeepsDials(s: State, k: nat)
    requires DialsOk(s) && RoomOk(s) && Enabled(s, Proceed(k))
    ensures DialsOk(Step(s, Proceed(k)))
  {
    var s' := Step(s, Proceed(k));
    if s.active.Some? {
      AdvanceKeepsInv(s.chain, k, Settled);
    } else {
      AdvanceKeepsInv(s.chain, k, Running);
      OneAtATimeInOrder(s'.chain, k);
    }
  }

  lemma RegisterKeepsDials(s: State, k: nat)
    requires DialsOk(s) && Enabled(s, Register(k))
    ensures DialsOk(Step(s, Register(k)))
  {
    AdvanceKeepsInv(s.chain, k, Settled);
    OneAtATimeInOrder(s.chain, k);
  }

  lemma EstablishKeepsDials(s: State, persist: bool)
    requires DialsOk(s)
    ensures DialsOk(Step(s, Establish(persist)))
  {
    LaunchKeepsInv(s.chain);
  }

  lemma OthersKeepDials(s: State, e: Event)
    requires DialsOk(s) && RoomOk(s) && Enabled(s, e)
    requires e.Connected? || e.OnSuperseded? || e.OnClosed? || e.Advance? || e.AdvanceLive? || e.AdvanceSkipped?
             || e.AdvanceFailed?
    ensures DialsOk(Step(s, e))
  {
  }

  lemma StepKeepsDials(s: State, e: Event)
    requires DialsOk(s) && RoomOk(s)
    ensures DialsOk(Step(s, e))
  {
    if Enabled(s, e) {
      match e
      case Establish(persist) => EstablishKeepsDials(s, persist);
      case Proceed(k) => ProceedKeepsDials(s, k);
      case ConnectFailed(k) => AdvanceKeepsInv(s.chain, k, Settled);
      case Register(k) => RegisterKeepsDials(s, k);
      case Forget(k) => ClearKeepsInv(s.chain, k);
      case _ => OthersKeepDials(s, e);
    }
  }

  lemma StepKeepsRoom(s: State, e: Event)
    requires DialsOk(s) && RoomOk(s)
    ensures RoomOk(Step(s, e))
  {
  }

  lemma {:induction false} RunKeepsInv(es: seq<Event>)
    ensures Inv(Run(IDLE, es))
  {
    if es != [] {
      var before := Run(IDLE, es[..|es| - 1]);
      RunKeepsInv(es[..|es| - 1]);
      StepKeepsDials(before, es[|es| - 1]);
      StepKeepsRoom(before, es[|es| - 1]);
      StepKeepsHolders(before, es[|es| - 1]);
    }
  }

  /** For every interleaving: at most one connect is being dialed. */
  lemma AtMostOneDial(es: seq<Event>, j: nat, k: nat)
    requires var s := Run(IDLE, es); Dialing(s, j) && Dialing(s, k)
    ensures j == k
  {
    RunKeepsInv(es);
    OneAtATimeInOrder(Run(IDLE, es).chain, j);
    OneAtATimeInOrder(Run(IDLE, es).chain, k);
  }

  /** Registration finds the room free, so it never overwrites a live entry; and it
      registers the attempt's own connection unless that one was superseded meanwhile. */
  lemma RegistrationNeverOverwrites(es: seq<Event>, k: nat)
    requires Enabled(Run(IDLE, es), Register(k))
    ensures var s := Run(IDLE, es); var conn := s.attempts[k].conn.value;
      && s.active == None && conn !in s.embodiments
      && Step(s, Register(k)).active == if conn in s.superseded then None else Some(conn)
  {
    RunKeepsInv(es);
    StepKeepsRoom(Run(IDLE, es), Register(k));
    var s := Run(IDLE, es);
    FlaggedIffSuperseded(es, k);
  }

  lemma {:induction false} FlaggedWereSuperseded(es: seq<Event>)
    ensures Run(IDLE, es).flagged <= Run(IDLE, es).superseded
  {
    if es != [] {
      FlaggedWereSuperseded(es[..|es| - 1]);
    }
  }

  /** While a connection is being dialed, its flag says exactly whether it was superseded. */
  lemma FlaggedIffSuperseded(es: seq<Event>, k: nat)
    requires Dialing(Run(IDLE, es), k)
    ensures var s := Run(IDLE, es);
      s.attempts[k].conn.value in s.flagged <==> s.attempts[k].conn.value in s.superseded
  {
    RunKeepsInv(es);
    FlaggedWereSuperseded(es);
  }

  /** In every reachable state the registered connection has not been superseded. */
  lemma RegisteredIsNotSuperseded(es: seq<Event>)
    ensures var s := Run(IDLE, es); s.active.Some? ==> s.active.value !in s.superseded
  {
    RunKeepsInv(es);
  }

  /** A late event from a connection that is not the registered one never removes it. */
  lemma LateEventsSpareTheSuccessor(s: State, e: Event, conn: nat)
    requires s.active == Some(conn)
    requires e.OnSuperseded? || e.OnClosed? ==> e.conn != conn
    requires e.AdvanceSkipped? && e.task in s.advances ==> s.advances[e.task] != conn
    requires !e.Register?
    ensures Step(s, e).active == Some(conn)
  {
  }

  /** `holders` is the number of advances in flight on the embodiment, always. */
  lemma HoldersCountAdvances(es: seq<Event>, conn: nat)
    requires conn in Run(IDLE, es).embodiments
    ensures Run(IDLE, es).embodiments[conn].holders == |TasksOn(Run(IDLE, es).advances, conn)|
  {
    RunKeepsInv(es);
  }

  /** Admitting a connection, in one record. */
  lemma AdmitInOne(s: State, k: nat, conn: nat)
    requires Enabled(s, Register(k)) && s.attempts[k].conn == Some(conn) && conn !in s.flagged
    ensures var persist := s.attempts[k].persist;
      Step(s, Register(k)) == s.(chain := SetPhase(s.chain, k, Settled),
      attempts := s.attempts[k := s.attempts[k].(result := Some(conn))], active := Some(conn),
      embodiments := s.embodiments[conn := Embodiment(0, persist)])
  {
    assert s.embodiments[conn := Embodiment(0, false)][conn := Embodiment(0, true)]
        == s.embodiments[conn := Embodiment(0, true)];
  }

  lemma RunSnoc(s: State, es: seq<Event>, e: Event)
    ensures Run(s, es + [e]) == Step(Run(s, es), e)
  {
    assert (es + [e])[..|es|] == es;
  }

  /** A registered connection over a dead socket. */
  predicate Phantom(s: State) {
    s.active.Some? && s.active.value in s.dropped
  }

  /** Registering an attempt whose socket is already gone, and was not superseded. */
  predicate RegistersTheDead(s: State, e: Event) {
    && e.Register? && Enabled(s, e)
    && s.attempts[e.attempt].conn.value in s.dropped && s.attempts[e.attempt].conn.value !in s.flagged
  }

  /** Exactly when the bridge holds a phantom: when the drop arrived before the connection was
      registered. */
  lemma PhantomIffDroppedEarly(es: seq<Event>)
    ensures var s := Run(IDLE, es);
      s.active.Some? ==> (s.active.value in s.dropped <==> s.active.value in s.droppedEarly)
  {
    RunKeepsInv(es);
  }

  /** A step that takes the registered connection away: its supersede, its close, or a retraction
      by the last advance on an unjustified embodiment. */
  predicate TearsDown(s: State, e: Event) {
    && s.active.Some?
    && match e
       case OnSuperseded(conn) => conn == s.active.value && conn < s.conns
       case OnClosed(conn) => conn == s.active.value && conn < s.conns
       case AdvanceSkipped(t) =>
         && t in s.advances && s.advances[t] == s.active.value && s.active.value in s.embodiments
         && s.embodiments[s.active.value].holders == 1 && !s.embodiments[s.active.value].justified
       case _ => false
  }

  /** Exactly which steps make a phantom and which remove it, by what can be read before them. */
  lemma PhantomStep(es: seq<Event>, e: Event)
    ensures var s := Run(IDLE, es);
      Phantom(Step(s, e)) <==> if Phantom(s) then !TearsDown(s, e) else RegistersTheDead(s, e)
  {
    var s := Run(IDLE, es);
    if e.Register? && Enabled(s, e) {
      RegistrationNeverOverwrites(es, e.attempt);
    }
  }

  /** A dead connection was registered, and nothing took it away since. */
  predicate DeadSince(es: seq<Event>) {
    es != []
    && var before, last := es[..|es| - 1], es[|es| - 1];
       RegistersTheDead(Run(IDLE, before), last) || (DeadSince(before) && !TearsDown(Run(IDLE, before), last))
  }

  /** Over every run: the bridge holds a phantom if and only if it registered a connection that
      was dropped and not flagged at that moment, and nothing took it away since. The drop of a
      connection that is already registered never leaves one. */
  lemma {:induction false} PhantomIff(es: seq<Event>)
    ensures Phantom(Run(IDLE, es)) <==> DeadSince(es)
  {
    if es != [] {
      var before, last := es[..|es| - 1], es[|es| - 1];
      PhantomIff(before);
      PhantomStep(before, last);
      if RegistersTheDead(Run(IDLE, before), last) {
        RegistrationNeverOverwrites(before, last.attempt);
      }
    }
  }

  /** Such a run: the socket drops between `connect()` resolving and registration. */
  lemma DropBeforeRegistrationLeavesPhantom()
    ensures var s := Run(IDLE, [Establish(true), Proceed(0), Connected(0), OnClosed(0), Register(0)]);
      s.active == Some(0) && 0 in s.dropped
  {
    var s1 := Step(IDLE, Establish(true));
    var s2 := Step(s1, Proceed(0));
    assert s2.chain.links[0].phase == Running && s2.attempts[0].conn == Some(0);
    var s4 := Step(Step(s2, Connected(0)), OnClosed(0));
    assert Dialing(s4, 0);
    FiveSteps(IDLE, Establish(true), Proceed(0), Connected(0), OnClosed(0), Register(0));
  }

  lemma FiveSteps(s: State, a: Event, b: Event, c: Event, d: Event, e: Event)
    ensures Run(s, [a, b, c, d, e]) == Step(Step(Step(Step(Step(s, a), b), c), d), e)
  {
    RunSnoc(s, [], a);
    RunSnoc(s, [a], b);
    RunSnoc(s, [a, b], c);
    RunSnoc(s, [a, b, c], d);
    RunSnoc(s, [a, b, c, d], e);
    assert [] + [a] == [a];
    assert [a] + [b] == [a, b];
    assert [a, b] + [c] == [a, b, c];
    assert [a, b, c] + [d] == [a, b, c, d];
    assert [a, b, c, d] + [e] == [a, b, c, d, e];
  }
}
