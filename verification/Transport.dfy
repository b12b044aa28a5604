/** The WebSocket client transport: one connection's lifecycle, and the calls and streams
    multiplexed over it by request id. Ids `r1`, `r2`, … are modelled by their number. */
module Transport {
  import opened Wrappers
  import opened StreamQueues

  datatype Life = Idle | Opening | Open | Closed

  datatype Frame =
    | StreamFrame(id: nat, chunk: string)
    | ResultFrame(id: nat, result: string)
    | ErrorFrame(id: nat, error: string)
    | ReadyFrame
    | SupersededFrame
    | OtherEventFrame
    | Unparseable

  /** Why a connect or a call was settled. */
  datatype Cause =
    | Resolved(result: string)
    | RejectedByFrame(error: string)
    | RejectedBySupersede
    | RejectedByClose
    | RejectedByError

  datatype Settlement = Settlement(id: nat, cause: Cause)

  datatype CloseInfo = CloseInfo(superseded: bool, deliberate: bool)

  /** `pending` and `streams` are the correlation maps; `queues` holds every stream's queue,
      which its consumer keeps after the map has dropped it. `connectOutcome`, `settlements`,
      `sent`, `seqAtClose` and `notices` record what was settled, sent, drawn before the
      close, and told to the close listeners. */
  datatype State = State(
    life: Life,
    embodying: bool,
    socketOpen: bool,
    seqNo: nat,
    superseded: bool,
    closedByCaller: bool,
    pendingOpen: bool,
    pending: set<nat>,
    streams: set<nat>,
    queues: map<nat, Queue>,
    connectOutcome: Option<Cause>,
    settlements: seq<Settlement>,
    sent: set<nat>,
    seqAtClose: Option<nat>,
    notices: seq<CloseInfo>)

  const NEW := State(Idle, false, false, 0, false, false, false, {}, {}, map[], None, [], {}, None, [])

  datatype Event =
    | Connect(embodying: bool)
    | SocketOpened
    | SocketError
    | SocketClosing
    | SocketClosed
    | Message(frame: Frame)
    | Call
    | CallStream
    | Consume(id: nat, move: StreamQueues.Event)
    | CloseByCaller

  function SettleOpen(s: State, outcome: Cause): State {
    if !s.pendingOpen then s
    else s.(pendingOpen := false, connectOutcome := Some(outcome), life := if outcome.Resolved? then Open else s.life)
  }

  function SettleCall(s: State, id: nat, cause: Cause): State {
    if id in s.pending
    then s.(pending := s.pending - {id}, settlements := s.settlements + [Settlement(id, cause)]) else s
  }

  function OnQueue(s: State, id: nat, e: StreamQueues.Event): State {
    if id in s.streams && id in s.queues
    then s.(queues := s.queues[id := StreamQueues.Step(s.queues[id], e)]) else s
  }

  /** Every pending call is rejected, in some order. */
  function RejectAll(s: State, ids: seq<nat>, cause: Cause): State
    decreases |ids|
  {
    if ids == [] then s else RejectAll(SettleCall(s, ids[0], cause), ids[1..], cause)
  }

  function Ascending(ids: set<nat>, from: nat, end: nat): (r: seq<nat>)
    ensures forall id :: id in r <==> id in ids && from <= id < end
    decreases end - from
  {
    if from >= end then []
    else (if from in ids then [from] else []) + Ascending(ids, from + 1, end)
  }

  function CloseError(s: State): string {
    if s.superseded then "superseded" else "closed"
  }

  function FailAll(s: State, error: string): State {
    s.(streams := {},
    queues := map id | id in s.queues ::
      if id in s.streams then StreamQueues.Step(s.queues[id], Fail(error)) else s.queues[id])
  }

  /** The queues once the streams below an id have been failed. */
  ghost function FailBelow(s: State, error: string, id: nat): map<nat, Queue> {
    map i | i in s.queues ::
      if i < id && i in s.streams then StreamQueues.Step(s.queues[i], Fail(error)) else s.queues[i]
  }

  lemma FailNone(s: State, error: string)
    ensures FailBelow(s, error, 0) == s.queues
  {
  }

  lemma FailNext(s: State, error: string, id: nat)
    ensures FailBelow(s, error, id + 1) ==
      if id in s.streams && id in s.queues
      then FailBelow(s, error, id)[id := StreamQueues.Step(s.queues[id], Fail(error))]
      else FailBelow(s, error, id)
  {
  }

  lemma FailEvery(s: State, error: string)
    requires forall id :: id in s.queues ==> id <= s.seqNo
    ensures FailAll(s, error) == s.(streams := {}, queues := FailBelow(s, error, s.seqNo + 1))
  {
    assert FailAll(s, error).queues == FailBelow(s, error, s.seqNo + 1);
  }

  function CloseCause(s: State): Cause {
    if s.superseded then RejectedBySupersede else RejectedByClose
  }

  /** The close takes the connect with it, if the connect is still waiting. */
  function MarkClosed(s: State): State {
    if s.life == Opening
    then SettleOpen(s.(life := Closed), CloseCause(s))
    else s.(life := Closed)
  }

  function HandleClose(s: State): State {
    if s.life == Closed then s
    else
      var settled := MarkClosed(s);
      var rejected := RejectAll(settled, Ascending(s.pending, 0, s.seqNo + 1), CloseCause(s));
      FailAll(rejected, CloseError(s)).(seqAtClose := Some(s.seqNo),
      notices := s.notices + [CloseInfo(s.superseded, s.closedByCaller)])
  }

  lemma CloseInStages(s: State, marked: State, rejected: State, failed: State)
    requires s.life != Closed && marked == MarkClosed(s)
    requires rejected == RejectAll(marked, Ascending(s.pending, 0, s.seqNo + 1), CloseCause(s))
    requires failed == FailAll(rejected, CloseError(s))
    ensures HandleClose(s) ==
            failed.(seqAtClose := Some(s.seqNo), notices := s.notices + [CloseInfo(s.superseded, s.closedByCaller)])
  {
  }

  function OnMessage(s: State, frame: Frame): State {
    match frame
    case StreamFrame(id, chunk) => OnQueue(s, id, Push(chunk))
    case ResultFrame(id, result) => SettleCall(OnQueue(s, id, End(result)), id, Resolved(result))
    case ErrorFrame(id, error) => SettleCall(OnQueue(s, id, Fail(error)), id, RejectedByFrame(error))
    case ReadyFrame => SettleOpen(s, Resolved("ready"))
    case SupersededFrame => SettleOpen(s.(superseded := true), RejectedBySupersede)
    case OtherEventFrame => s
    case Unparseable => s
  }

  function Step(s: State, e: Event): State {
    match e
    case Connect(embodying) =>
      if s.life != Idle then s else s.(life := Opening, embodying := embodying, pendingOpen := true)
    case SocketOpened =>
      if s.life == Idle || s.life == Closed then s
      else
        var s1 := s.(socketOpen := true);
        if s.embodying then s1 else SettleOpen(s1, Resolved("open"))
    case SocketError =>
      if s.life == Opening then SettleOpen(s, RejectedByError) else s
    case SocketClosing =>
      s.(socketOpen := false)
    case SocketClosed =>
      if s.life == Idle then s else HandleClose(s.(socketOpen := false))
    case Message(frame) =>
      if s.life == Idle then s else OnMessage(s, frame)
    case Call =>
      var id := s.seqNo + 1;
      s.(seqNo := id, pending := s.pending + {id}, sent := if s.socketOpen then s.sent + {id} else s.sent)
    case CallStream =>
      var id := s.seqNo + 1;
      s.(seqNo := id, streams := s.streams + {id}, queues := s.queues[id := EMPTY_QUEUE],
      sent := if s.socketOpen then s.sent + {id} else s.sent)
    case Consume(id, move) =>
      if id !in s.queues || !(move.Pull? || move.Resume? || move.CloseConsumer?) then s
      else
        var q := StreamQueues.Step(s.queues[id], move);
        var done := q.consumer.Returned? || q.consumer.Thrown? || q.consumer.Left?;
        s.(queues := s.queues[id := q], streams := if done then s.streams - {id} else s.streams)
    case CloseByCaller =>
      s.(closedByCaller := true)
  }

  function Run(s: State, es: seq<Event>): State {
    if es == [] then s else Step(Run(s, es[..|es| - 1]), es[|es| - 1])
  }

  ghost predicate SettledOnce(s: State) {
    && (forall i, j :: 0 <= i < j < |s.settlements| ==> s.settlements[i].id != s.settlements[j].id)
    && (forall i :: 0 <= i < |s.settlements| ==> s.settlements[i].id !in s.pending && s.settlements[i].id <= s.seqNo)
    && (forall id :: id in s.pending ==> 1 <= id <= s.seqNo)
  }

  ghost predicate LifeOk(s: State) {
    && (s.pendingOpen ==> s.life == Opening && s.connectOutcome.None?)
    && (s.life == Idle ==> s.connectOutcome.None? && !s.superseded)
    && (s.superseded ==> !s.pendingOpen)
    && (s.life == Open ==> s.connectOutcome.Some?)
    && (s.life == Closed <==> s.seqAtClose.Some?)
    && (s.life == Closed || s.life == Idle ==> !s.socketOpen)
    && (s.life == Opening && !s.pendingOpen ==> s.connectOutcome.Some? && !s.connectOutcome.value.Resolved?)
  }

  ghost predicate StreamsOk(s: State) {
    && s.streams <= s.queues.Keys
    && (forall id :: id in s.queues ==> StreamQueues.Inv(s.queues[id]) && id <= s.seqNo)
    && (forall id :: id in s.queues && id !in s.streams ==>
          var q := s.queues[id];
          q.finished || q.failure.Some? || q.consumer.Left?)
  }

  ghost predicate LateOk(s: State) {
    && (forall id :: id in s.sent ==> id <= s.seqNo)
    && (s.seqAtClose.Some? ==>
          && s.seqAtClose.value <= s.seqNo
          && (forall id :: id in s.pending || id in s.streams ==> id > s.seqAtClose.value)
          && (forall id :: id in s.sent ==> id <= s.seqAtClose.value))
  }

  ghost predicate Inv(s: State) {
    SettledOnce(s) && LifeOk(s) && StreamsOk(s) && LateOk(s)
  }

  lemma SettleCallKeepsOnce(s: State, id: nat, cause: Cause)
    requires SettledOnce(s)
    ensures SettledOnce(SettleCall(s, id, cause))
  {
  }

  lemma AscendingNext(ids: set<nat>, from: nat, end: nat)
    requires from < end
    ensures var l := Ascending(ids, from, end);
      if from in ids then l != [] && l[0] == from && l[1..] == Ascending(ids, from + 1, end)
      else l == Ascending(ids, from + 1, end)
  {
  }

  lemma RejectNext(s: State, ids: seq<nat>, cause: Cause)
    requires ids != []
    ensures RejectAll(s, ids, cause) == RejectAll(SettleCall(s, ids[0], cause), ids[1..], cause)
  {
  }

  lemma {:induction false} RejectAllFrame(s: State, ids: seq<nat>, cause: Cause)
    ensures var s' := RejectAll(s, ids, cause);
      && s' == s.(pending := s'.pending, settlements := s'.settlements)
      && (forall id :: id in s'.pending <==> id in s.pending && id !in ids)
    decreases |ids|
  {
    if ids != [] {
      RejectAllFrame(SettleCall(s, ids[0], cause), ids[1..], cause);
    }
  }

  lemma {:induction false} RejectAllSettles(s: State, ids: seq<nat>, cause: Cause)
    requires SettledOnce(s)
    ensures var s' := RejectAll(s, ids, cause);
      && SettledOnce(s')
      && s.settlements <= s'.settlements
      && (forall i :: |s.settlements| <= i < |s'.settlements| ==>
            s'.settlements[i].cause == cause && s'.settlements[i].id in s.pending)
    decreases |ids|
  {
    if ids != [] {
      SettleCallKeepsOnce(s, ids[0], cause);
      RejectAllSettles(SettleCall(s, ids[0], cause), ids[1..], cause);
    }
  }

  lemma {:induction false} RejectAllReaches(s: State, ids: seq<nat>, cause: Cause, id: nat)
    requires SettledOnce(s) && id in ids && id in s.pending
    ensures Settlement(id, cause) in RejectAll(s, ids, cause).settlements
    decreases |ids|
  {
    var s1 := SettleCall(s, ids[0], cause);
    SettleCallKeepsOnce(s, ids[0], cause);
    if ids[0] == id {
      RejectAllSettles(s1, ids[1..], cause);
      assert s1.settlements[|s.settlements|] == Settlement(id, cause);
      assert RejectAll(s1, ids[1..], cause).settlements[|s.settlements|] == Settlement(id, cause);
    } else {
      RejectAllReaches(s1, ids[1..], cause, id);
    }
  }

  lemma CloseIsRejectAll(s: State, r: State)
    requires s.life != Closed && r == RejectAll(MarkClosed(s), Ascending(s.pending, 0, s.seqNo + 1), CloseCause(s))
    ensures var s' := HandleClose(s);
      && s'.pending == r.pending && s'.settlements == r.settlements && s'.seqNo == r.seqNo
      && r.seqNo == s.seqNo && SettledOnce(s') == SettledOnce(r)
      && forall id :: id in r.pending <==> id in s.pending && !(0 <= id < s.seqNo + 1)
  {
    RejectAllFrame(MarkClosed(s), Ascending(s.pending, 0, s.seqNo + 1), CloseCause(s));
  }

  lemma MarkClosedFrame(s: State)
    requires s.life != Closed
    ensures MarkClosed(s) == s.(life := Closed, pendingOpen := s.pendingOpen && s.life != Opening,
                                connectOutcome := if s.life == Opening && s.pendingOpen then Some(CloseCause(s))
                                                  else s.connectOutcome)
  {
  }

  lemma AllRejected(s: State, ids: seq<nat>, cause: Cause)
    requires SettledOnce(s) && forall id :: id in s.pending ==> id in ids
    ensures var r := RejectAll(s, ids, cause);
      && SettledOnce(r) && r.pending == {} && s.settlements <= r.settlements
      && (forall id :: id in s.pending ==> Settlement(id, cause) in r.settlements)
      && (forall i :: |s.settlements| <= i < |r.settlements| ==>
            r.settlements[i].cause == cause && r.settlements[i].id in s.pending)
  {
    RejectAllFrame(s, ids, cause);
    RejectAllSettles(s, ids, cause);
    forall id | id in s.pending
      ensures Settlement(id, cause) in RejectAll(s, ids, cause).settlements
    {
      RejectAllReaches(s, ids, cause, id);
    }
  }

  lemma CloseTail(s: State, marked: State, failed: State)
    requires s.life != Closed && marked == MarkClosed(s)
    requires failed == FailAll(RejectAll(marked, Ascending(s.pending, 0, s.seqNo + 1), CloseCause(s)), CloseError(s))
    ensures HandleClose(s) == failed.(seqAtClose := Some(failed.seqNo),
            notices := failed.notices + [CloseInfo(failed.superseded, failed.closedByCaller)])
  {
    var ids := Ascending(s.pending, 0, s.seqNo + 1);
    CloseInStages(s, marked, RejectAll(marked, ids, CloseCause(s)), failed);
    RejectAllFrame(marked, ids, CloseCause(s));
    MarkClosedFrame(s);
  }

  /** The close settles every call registered before it, each once and by the close. */
  lemma CloseSettlesCalls(s: State)
    requires SettledOnce(s) && s.life != Closed
    ensures var s' := HandleClose(s);
      && SettledOnce(s') && s'.pending == {} && s.settlements <= s'.settlements
      && (forall id :: id in s.pending ==> Settlement(id, CloseCause(s)) in s'.settlements)
      && (forall i :: |s.settlements| <= i < |s'.settlements| ==>
            s'.settlements[i].cause == CloseCause(s) && s'.settlements[i].id in s.pending)
  {
    var ids := Ascending(s.pending, 0, s.seqNo + 1);
    MarkClosedFrame(s);
    AllRejected(MarkClosed(s), ids, CloseCause(s));
    CloseIsRejectAll(s, RejectAll(MarkClosed(s), ids, CloseCause(s)));
  }

  lemma CloseLeavesTheRest(s: State)
    requires s.life != Closed
    ensures var s' := HandleClose(s);
      && s'.life == Closed && s'.socketOpen == s.socketOpen && s'.embodying == s.embodying
      && s'.seqNo == s.seqNo && s'.sent == s.sent && s'.closedByCaller == s.closedByCaller
      && s'.notices == s.notices + [CloseInfo(s.superseded, s.closedByCaller)]
      && s'.streams == {} && s'.seqAtClose == Some(s.seqNo) && s'.superseded == s.superseded
      && s'.pendingOpen == (s.pendingOpen && s.life != Opening)
      && s'.connectOutcome == (if s.life == Opening && s.pendingOpen then Some(CloseCause(s)) else s.connectOutcome)
      && s'.queues == map id | id in s.queues ::
           if id in s.streams then StreamQueues.Step(s.queues[id], Fail(CloseError(s))) else s.queues[id]
  {
    var ids := Ascending(s.pending, 0, s.seqNo + 1);
    MarkClosedFrame(s);
    RejectAllFrame(MarkClosed(s), ids, CloseCause(s));
    var rejected := RejectAll(MarkClosed(s), ids, CloseCause(s));
    CloseInStages(s, MarkClosed(s), rejected, FailAll(rejected, CloseError(s)));
  }

  lemma CloseKeepsStreams(s: State)
    requires SettledOnce(s) && StreamsOk(s) && s.life != Closed
    ensures StreamsOk(HandleClose(s))
  {
    CloseLeavesTheRest(s);
    forall id | id in s.queues && id in s.streams
      ensures StreamQueues.Inv(StreamQueues.Step(s.queues[id], Fail(CloseError(s))))
    {
      StreamQueues.StepKeepsInv(s.queues[id], Fail(CloseError(s)));
    }
  }

  lemma CloseKeepsInv(s: State)
    requires Inv(s) && s.life != Idle
    ensures Inv(Step(s, SocketClosed))
  {
    var t := s.(socketOpen := false);
    if s.life != Closed {
      CloseSettlesCalls(t);
      CloseLeavesTheRest(t);
      CloseKeepsStreams(t);
    }
  }

  lemma OnQueueKeepsInv(s: State, id: nat, e: StreamQueues.Event)
    requires Inv(s)
    ensures Inv(OnQueue(s, id, e))
  {
    if id in s.queues && id in s.streams {
      StreamQueues.StepKeepsInv(s.queues[id], e);
      assert OnQueue(s, id, e) == s.(queues := s.queues[id := StreamQueues.Step(s.queues[id], e)]);
      assert StreamsOk(OnQueue(s, id, e));
    }
  }

  lemma SettleCallKeepsInv(s: State, id: nat, cause: Cause)
    requires Inv(s)
    ensures Inv(SettleCall(s, id, cause))
  {
    SettleCallKeepsOnce(s, id, cause);
    var s' := SettleCall(s, id, cause);
    assert s' == s.(pending := s'.pending, settlements := s'.settlements);
    assert LateOk(s');
  }

  lemma MessageKeepsInv(s: State, frame: Frame)
    requires Inv(s) && s.life != Idle
    ensures Inv(OnMessage(s, frame))
  {
    match frame
    case StreamFrame(id, chunk) => OnQueueKeepsInv(s, id, Push(chunk));
    case ResultFrame(id, result) =>
      OnQueueKeepsInv(s, id, End(result));
      SettleCallKeepsInv(OnQueue(s, id, End(result)), id, Resolved(result));
    case ErrorFrame(id, error) =>
      OnQueueKeepsInv(s, id, Fail(error));
      SettleCallKeepsInv(OnQueue(s, id, Fail(error)), id, RejectedByFrame(error));
    case ReadyFrame => EventKeepsInv(s, frame);
    case SupersededFrame => EventKeepsInv(s, frame);
    case _ =>
  }

  lemma EventKeepsInv(s: State, frame: Frame)
    requires Inv(s) && s.life != Idle && (frame.ReadyFrame? || frame.SupersededFrame?)
    ensures Inv(OnMessage(s, frame))
  {
    var s' := OnMessage(s, frame);
    assert s' == s.(life := s'.life, superseded := s'.superseded, pendingOpen := s'.pendingOpen,
                    connectOutcome := s'.connectOutcome);
    assert LifeOk(s');
  }

  lemma ConsumeKeepsInv(s: State, id: nat, move: StreamQueues.Event)
    requires Inv(s)
    ensures Inv(Step(s, Consume(id, move)))
  {
    if id in s.queues {
      StreamQueues.StepKeepsInv(s.queues[id], move);
    }
  }

  lemma StepKeepsInv(s: State, e: Event)
    requires Inv(s)
    ensures Inv(Step(s, e))
  {
    match e
    case SocketClosed =>
      if s.life != Idle {
        CloseKeepsInv(s);
      }
    case Message(frame) =>
      if s.life != Idle {
        MessageKeepsInv(s, frame);
      }
    case Consume(id, move) => ConsumeKeepsInv(s, id, move);
    case _ =>
  }

  lemma {:induction false} RunKeepsInv(es: seq<Event>)
    ensures Inv(Run(NEW, es))
  {
    if es != [] {
      RunKeepsInv(es[..|es| - 1]);
      StepKeepsInv(Run(NEW, es[..|es| - 1]), es[|es| - 1]);
    }
  }

  lemma RunSnoc(s: State, es: seq<Event>, e: Event)
    ensures Run(s, es + [e]) == Step(Run(s, es), e)
  {
    assert (es + [e])[..|es|] == es;
  }

  lemma {:induction false} RunConcat(s: State, es: seq<Event>, more: seq<Event>)
    ensures Run(s, es + more) == Run(Run(s, es), more)
  {
    if more == [] {
      assert es + more == es;
    } else {
      var before := more[..|more| - 1];
      RunConcat(s, es, before);
      assert es + more == es + before + [more[|more| - 1]];
      RunSnoc(s, es + before, more[|more| - 1]);
    }
  }

  /** What each event says to a connect that is still waiting. */
  function Decision(embodying: bool, e: Event): Option<Cause> {
    match e
    case SocketOpened => if embodying then None else Some(Resolved("open"))
    case Message(ReadyFrame) => Some(Resolved("ready"))
    case Message(SupersededFrame) => Some(RejectedBySupersede)
    case SocketError => Some(RejectedByError)
    case SocketClosed => Some(RejectedByClose)
    case _ => None
  }

  lemma CloseDecides(s: State)
    requires LifeOk(s) && s.pendingOpen
    ensures var s' := HandleClose(s.(socketOpen := false));
      && s'.embodying == s.embodying && s'.connectOutcome == Some(RejectedByClose) && !s'.pendingOpen
      && s'.life == Closed
  {
    CloseLeavesTheRest(s.(socketOpen := false));
  }

  lemma DecisionSettles(s: State, e: Event)
    requires LifeOk(s) && s.pendingOpen
    ensures var s' := Step(s, e); var d := Decision(s.embodying, e);
      && s'.embodying == s.embodying && s'.connectOutcome == d && s'.pendingOpen == d.None? && s'.life != Idle
  {
    match e
    case SocketClosed => CloseDecides(s);
    case Message(frame) => FrameDecides(s, frame);
    case _ =>
  }

  lemma FrameDecides(s: State, frame: Frame)
    requires LifeOk(s) && s.pendingOpen
    ensures var s' := OnMessage(s, frame); var d := Decision(s.embodying, Message(frame));
      && s'.embodying == s.embodying && s'.connectOutcome == d && s'.pendingOpen == d.None? && s'.life != Idle
  {
  }

  /** A frame changes no more than this: it never registers, and never unsettles. */
  lemma FramesOnlySettle(s: State, frame: Frame)
    ensures var s' := OnMessage(s, frame);
      && s.settlements <= s'.settlements && s'.pending <= s.pending && s'.seqNo == s.seqNo
      && s'.embodying == s.embodying
      && (!s.pendingOpen ==> s'.connectOutcome == s.connectOutcome && s'.life == s.life && !s'.pendingOpen)
  {
    match frame
    case ResultFrame(id, result) => SettleCallFrame(OnQueue(s, id, End(result)), id, Resolved(result));
    case ErrorFrame(id, error) => SettleCallFrame(OnQueue(s, id, Fail(error)), id, RejectedByFrame(error));
    case _ =>
  }

  lemma SettleCallFrame(s: State, id: nat, cause: Cause)
    ensures var s' := SettleCall(s, id, cause);
      && s.settlements <= s'.settlements && s'.pending <= s.pending
      && s' == s.(pending := s'.pending, settlements := s'.settlements)
  {
  }

  lemma SettledConnectStays(s: State, e: Event)
    requires SettledOnce(s) && !s.pendingOpen && s.life != Idle
    ensures var s' := Step(s, e);
      !s'.pendingOpen && s'.life != Idle && s'.connectOutcome == s.connectOutcome && s'.embodying == s.embodying
  {
    match e
    case SocketClosed =>
      if s.life != Closed {
        CloseLeavesTheRest(s.(socketOpen := false));
      }
    case Message(frame) => FramesOnlySettle(s, frame);
    case _ =>
  }

  function FirstDecision(embodying: bool, es: seq<Event>): Option<Cause> {
    if es == [] then None
    else
      var earlier := FirstDecision(embodying, es[..|es| - 1]);
      if earlier.Some? then earlier else Decision(embodying, es[|es| - 1])
  }

  /** `connect` settles at most once, by the first event after it that decides, and keeps
      waiting exactly as long as nothing decides. */
  lemma {:induction false} ConnectTakesTheFirstDecision(idle: seq<Event>, embodying: bool, es: seq<Event>)
    requires forall i :: 0 <= i < |idle| ==> !idle[i].Connect?
    ensures var s := Run(NEW, idle + [Connect(embodying)] + es);
      && s.connectOutcome == FirstDecision(embodying, es) && s.pendingOpen == s.connectOutcome.None?
      && s.life != Idle && s.embodying == embodying
  {
    var all := idle + [Connect(embodying)] + es;
    if es == [] {
      IdleUntilConnect(idle);
      RunKeepsInv(idle);
      assert all == idle + [Connect(embodying)];
      RunSnoc(NEW, idle, Connect(embodying));
    } else {
      var before, last := es[..|es| - 1], es[|es| - 1];
      var earlier := idle + [Connect(embodying)] + before;
      ConnectTakesTheFirstDecision(idle, embodying, before);
      RunKeepsInv(earlier);
      assert all == earlier + [last];
      RunSnoc(NEW, earlier, last);
      DecisionStep(Run(NEW, earlier), last);
    }
  }

  lemma DecisionStep(s: State, e: Event)
    requires Inv(s) && s.life != Idle && s.pendingOpen == s.connectOutcome.None?
    ensures var s' := Step(s, e);
      && s'.connectOutcome == (if s.connectOutcome.Some? then s.connectOutcome else Decision(s.embodying, e))
      && s'.pendingOpen == s'.connectOutcome.None? && s'.life != Idle && s'.embodying == s.embodying
  {
    if s.pendingOpen {
      DecisionSettles(s, e);
    } else {
      SettledConnectStays(s, e);
    }
  }

  ghost predicate Rejects(e: Event) {
    e == SocketError || e == SocketClosed || e == Message(SupersededFrame)
  }

  /** It never resolves once a supersede, an error or a close came first. */
  lemma {:induction false} ResolvedConnectCameFirst(embodying: bool, es: seq<Event>)
    requires FirstDecision(embodying, es).Some? && FirstDecision(embodying, es).value.Resolved?
    ensures exists i :: 0 <= i < |es| && Decision(embodying, es[i]) == FirstDecision(embodying, es)
                        && forall j :: 0 <= j < i ==> !Rejects(es[j])
  {
    var before := es[..|es| - 1];
    if FirstDecision(embodying, before).Some? {
      ResolvedConnectCameFirst(embodying, before);
      var i :| 0 <= i < |before| && Decision(embodying, before[i]) == FirstDecision(embodying, es)
                && forall j :: 0 <= j < i ==> !Rejects(before[j]);
      assert es[i] == before[i] && forall j :: 0 <= j < i ==> es[j] == before[j];
    } else {
      UndecidedMeansNoReject(embodying, before);
      assert forall j :: 0 <= j < |before| ==> es[j] == before[j];
      assert Decision(embodying, es[|before|]) == FirstDecision(embodying, es);
    }
  }

  lemma {:induction false} UndecidedMeansNoReject(embodying: bool, es: seq<Event>)
    requires FirstDecision(embodying, es).None?
    ensures forall j :: 0 <= j < |es| ==> !Rejects(es[j])
  {
    if es != [] {
      var before := es[..|es| - 1];
      UndecidedMeansNoReject(embodying, before);
      assert forall j :: 0 <= j < |before| ==> es[j] == before[j];
    }
  }

  lemma {:induction false} IdleUntilConnect(es: seq<Event>)
    requires forall i :: 0 <= i < |es| ==> !es[i].Connect?
    ensures Run(NEW, es).life == Idle && !Run(NEW, es).pendingOpen
  {
    if es != [] {
      IdleUntilConnect(es[..|es| - 1]);
    }
  }

  /** What an event says to the call with this id. */
  function Answer(s: State, id: nat, e: Event): Option<Cause> {
    if s.life == Idle then None
    else match e
      case Message(ResultFrame(i, result)) => if i == id then Some(Resolved(result)) else None
      case Message(ErrorFrame(i, error)) => if i == id then Some(RejectedByFrame(error)) else None
      case SocketClosed => if s.life == Closed then None else Some(CloseCause(s))
      case _ => None
  }

  /** The first answer a call hears in a run. */
  function FirstAnswer(s: State, es: seq<Event>, id: nat): Option<Cause> {
    if es == [] then None
    else
      var before := es[..|es| - 1];
      var earlier := FirstAnswer(s, before, id);
      if earlier.Some? then earlier else Answer(Run(s, before), id, es[|es| - 1])
  }

  lemma SettleCallSettles(s: State, id: nat, cause: Cause)
    requires id in s.pending
    ensures var s' := SettleCall(s, id, cause);
      && Settlement(id, cause) in s'.settlements && s.settlements <= s'.settlements && s'.pending == s.pending - {id}
  {
    assert SettleCall(s, id, cause).settlements[|s.settlements|] == Settlement(id, cause);
  }

  lemma SettleCallAnswers(s: State, id: nat, i: nat, cause: Cause)
    requires id in s.pending
    ensures var s' := SettleCall(s, i, cause);
      && (id in s'.pending <==> i != id) && (i == id ==> Settlement(id, cause) in s'.settlements)
  {
    if i == id {
      SettleCallSettles(s, id, cause);
    }
  }

  lemma FrameSettles(s: State, id: nat, frame: Frame)
    requires id in s.pending && s.life != Idle
    ensures var s' := OnMessage(s, frame); var a := Answer(s, id, Message(frame));
      && (id in s'.pending <==> a.None?)
      && (a.Some? ==> Settlement(id, a.value) in s'.settlements)
  {
    match frame
    case ResultFrame(i, result) => SettleCallAnswers(OnQueue(s, i, End(result)), id, i, Resolved(result));
    case ErrorFrame(i, error) => SettleCallAnswers(OnQueue(s, i, Fail(error)), id, i, RejectedByFrame(error));
    case _ =>
  }

  lemma AnswerSettles(s: State, id: nat, e: Event)
    requires SettledOnce(s) && id in s.pending
    ensures var s' := Step(s, e); var a := Answer(s, id, e);
      && (id in s'.pending <==> a.None?)
      && (a.Some? ==> Settlement(id, a.value) in s'.settlements)
  {
    match e
    case SocketClosed =>
      if s.life != Closed && s.life != Idle {
        CloseSettlesCalls(s.(socketOpen := false));
      }
    case Message(frame) =>
      if s.life != Idle {
        FrameSettles(s, id, frame);
      }
    case _ =>
  }

  lemma SettlementsStay(s: State, e: Event)
    requires SettledOnce(s)
    ensures s.settlements <= Step(s, e).settlements && s.seqNo <= Step(s, e).seqNo
    ensures forall id :: id <= s.seqNo && id !in s.pending ==> id !in Step(s, e).pending
  {
    match e
    case SocketClosed =>
      if s.life != Closed && s.life != Idle {
        CloseSettlesCalls(s.(socketOpen := false));
        CloseLeavesTheRest(s.(socketOpen := false));
      }
    case Message(frame) => FramesOnlySettle(s, frame);
    case _ =>
  }

  /** No call is ever settled twice, nor while it is still pending. */
  lemma RunSettlesOnce(es: seq<Event>)
    ensures SettledOnce(Run(NEW, es))
  {
    RunKeepsInv(es);
  }

  /** Settled calls have exactly one settlement; pending ones have none. */
  ghost predicate Fate(s: State, id: nat, outcome: Option<Cause>) {
    && (id in s.pending <==> outcome.None?)
    && (outcome.Some? ==> Settlement(id, outcome.value) in s.settlements)
    && id <= s.seqNo
  }

  lemma FateStep(s: State, id: nat, outcome: Option<Cause>, e: Event)
    requires SettledOnce(s) && Fate(s, id, outcome)
    ensures Fate(Step(s, e), id, if outcome.Some? then outcome else Answer(s, id, e))
  {
    SettlementsStay(s, e);
    if outcome.None? {
      AnswerSettles(s, id, e);
    }
  }

  lemma FateIsExact(s: State, id: nat, outcome: Option<Cause>)
    requires SettledOnce(s) && Fate(s, id, outcome)
    ensures forall cause :: Settlement(id, cause) in s.settlements <==> outcome == Some(cause)
  {
  }

  lemma {:induction false} RunFate(s: State, es: seq<Event>, id: nat)
    requires Inv(s) && Fate(s, id, None)
    ensures Inv(Run(s, es)) && Fate(Run(s, es), id, FirstAnswer(s, es, id))
  {
    if es != [] {
      var before, last := es[..|es| - 1], es[|es| - 1];
      RunFate(s, before, id);
      StepKeepsInv(Run(s, before), last);
      FateStep(Run(s, before), id, FirstAnswer(s, before, id), last);
    }
  }

  lemma CallBegins(es: seq<Event>, begun: State)
    requires begun == Run(NEW, es + [Call])
    ensures Inv(begun) && Fate(begun, begun.seqNo, None)
  {
    RunKeepsInv(es);
    RunSnoc(NEW, es, Call);
    StepKeepsInv(Run(NEW, es), Call);
  }

  lemma StreamBegins(es: seq<Event>, begun: State)
    requires begun == Run(NEW, es + [CallStream])
    ensures Inv(begun) && HasHeard(begun, begun.seqNo, [])
  {
    RunKeepsInv(es);
    RunSnoc(NEW, es, CallStream);
    StepKeepsInv(Run(NEW, es), CallStream);
  }

  lemma CallFate(begun: State, more: seq<Event>, id: nat, s: State, outcome: Option<Cause>)
    requires Inv(begun) && Fate(begun, id, None) && s == Run(begun, more) && outcome == FirstAnswer(begun, more, id)
    ensures id in s.pending <==> outcome.None?
    ensures forall cause :: Settlement(id, cause) in s.settlements <==> outcome == Some(cause)
  {
    RunFate(begun, more, id);
    FateIsExact(s, id, outcome);
  }

  /** Every call is settled by the first answer it gets — a result or error frame carrying its
      own id, or the close — and by nothing else: it is pending exactly while there was none,
      and no second settlement ever follows. */
  lemma CallSettlesWithItsFirstAnswer(es: seq<Event>, more: seq<Event>)
    ensures var begun := Run(NEW, es + [Call]); var s := Run(NEW, es + [Call] + more); var id := begun.seqNo;
      && (id in s.pending <==> FirstAnswer(begun, more, id).None?)
      && (forall cause :: Settlement(id, cause) in s.settlements <==> FirstAnswer(begun, more, id) == Some(cause))
  {
    var begun := Run(NEW, es + [Call]);
    CallBegins(es, begun);
    RunConcat(NEW, es + [Call], more);
    CallFate(begun, more, begun.seqNo, Run(NEW, es + [Call] + more), FirstAnswer(begun, more, begun.seqNo));
  }

  predicate HasOutcome(q: Queue) {
    q.finished || q.failure.Some?
  }

  ghost predicate Settled(q: Queue) {
    HasOutcome(q) || q.consumer.Left?
  }

  lemma CloseSettlesAll(s: State)
    requires SettledOnce(s) && StreamsOk(s) && s.life != Closed
    ensures var s' := HandleClose(s);
      && s'.pending == {} && s'.streams == {}
      && (forall id :: id in s.pending ==> Settlement(id, CloseCause(s)) in s'.settlements)
      && (forall id :: id in s.queues ==> id in s'.queues && NotLeftWaiting(s'.queues[id], s.queues[id].accepted))
  {
    CloseSettlesCalls(s);
    CloseLeavesTheRest(s);
    forall id | id in s.queues
      ensures id in HandleClose(s).queues && NotLeftWaiting(HandleClose(s).queues[id], s.queues[id].accepted)
    {
      if id in s.streams {
        FailedIsNotLeftWaiting(s.queues[id], CloseError(s));
      } else {
        SettledIsNotLeftWaiting(s.queues[id]);
      }
    }
  }

  lemma FailedIsNotLeftWaiting(q: Queue, error: string)
    requires StreamQueues.Inv(q)
    ensures NotLeftWaiting(StreamQueues.Step(q, Fail(error)), q.accepted)
  {
    StreamQueues.StepKeepsInv(q, Fail(error));
    SettledIsNotLeftWaiting(StreamQueues.Step(q, Fail(error)));
  }

  /** When the socket closes, nothing registered before it is left waiting: every pending call
      is rejected with the reason of the close, and every open stream is settled — its consumer
      is not parked, and one that is between pulls drains what arrived and then sees an outcome. */
  lemma CloseSettlesEverything(es: seq<Event>)
    requires Run(NEW, es).life != Idle && Run(NEW, es).life != Closed
    ensures var s := Run(NEW, es); var s' := Run(NEW, es + [SocketClosed]);
      && s'.pending == {} && s'.streams == {}
      && (forall id :: id in s.pending ==> Settlement(id, CloseCause(s)) in s'.settlements)
      && (forall id :: id in s.queues ==> id in s'.queues && NotLeftWaiting(s'.queues[id], s.queues[id].accepted))
  {
    var s := Run(NEW, es);
    RunKeepsInv(es);
    RunSnoc(NEW, es, SocketClosed);
    CloseSettlesAll(s.(socketOpen := false));
  }

  ghost predicate NotLeftWaiting(q: Queue, accepted: seq<string>) {
    && q.accepted == accepted && Settled(q) && !q.consumer.Parked?
    && (q.consumer.AtYield? ==>
          var drained := Pulls(q, |q.buffer| + 1);
          drained.yielded == accepted && (drained.consumer.Thrown? || drained.consumer.Returned?))
  }

  lemma SettledIsNotLeftWaiting(q: Queue)
    requires StreamQueues.Inv(q) && Settled(q)
    ensures NotLeftWaiting(q, q.accepted)
  {
    if q.consumer.AtYield? {
      SettledStreamDrains(q);
    }
  }

  predicate Names(e: Event, id: nat) {
    e.Message? && (e.frame.ResultFrame? || e.frame.ErrorFrame?) && e.frame.id == id
  }

  lemma ClosedForever(s: State, e: Event)
    requires LifeOk(s) && s.life == Closed
    ensures Step(s, e).life == Closed && Step(s, e).seqAtClose == s.seqAtClose
  {
  }

  lemma ClosedAnswers(s: State, id: nat, e: Event)
    requires s.life == Closed
    ensures Answer(s, id, e).None? <==> !Names(e, id)
  {
  }

  lemma {:induction false} ClosedRun(s: State, es: seq<Event>)
    requires Inv(s) && s.life == Closed
    ensures Inv(Run(s, es)) && Run(s, es).life == Closed && Run(s, es).seqAtClose == s.seqAtClose
  {
    if es != [] {
      var before, last := es[..|es| - 1], es[|es| - 1];
      ClosedRun(s, before);
      StepKeepsInv(Run(s, before), last);
      ClosedForever(Run(s, before), last);
    }
  }

  lemma {:induction false} ClosedRunAnswers(s: State, es: seq<Event>, id: nat)
    requires Inv(s) && s.life == Closed
    ensures FirstAnswer(s, es, id).None? <==> forall i :: 0 <= i < |es| ==> !Names(es[i], id)
  {
    if es != [] {
      var before, last := es[..|es| - 1], es[|es| - 1];
      ClosedRunAnswers(s, before, id);
      ClosedRun(s, before);
      ClosedAnswers(Run(s, before), id, last);
      assert forall i :: 0 <= i < |before| ==> before[i] == es[i];
    }
  }

  lemma LateCall(s: State, begun: State, more: seq<Event>)
    requires Inv(s) && s.life == Closed && begun == Step(s, Call)
    ensures begun.seqNo !in Run(begun, more).sent
    ensures begun.seqNo in Run(begun, more).pending <==>
            forall i :: 0 <= i < |more| ==> !Names(more[i], begun.seqNo)
  {
    StepKeepsInv(s, Call);
    RunFate(begun, more, begun.seqNo);
    ClosedRun(begun, more);
    ClosedRunAnswers(begun, more, begun.seqNo);
  }

  /** A call made once the close has run is never written to the socket, and it settles if and
      only if a frame with its own id still arrives: nothing will close again. */
  lemma CallAfterTheCloseIsNeverSent(es: seq<Event>, more: seq<Event>)
    requires Run(NEW, es).life == Closed
    ensures var s := Run(NEW, es + [Call] + more); var id := Run(NEW, es + [Call]).seqNo;
      && id !in s.sent
      && (id in s.pending <==> forall i :: 0 <= i < |more| ==> !Names(more[i], id))
  {
    var s, begun := Run(NEW, es), Run(NEW, es + [Call]);
    RunKeepsInv(es);
    RunSnoc(NEW, es, Call);
    RunConcat(NEW, es + [Call], more);
    LateCall(s, begun, more);
  }

  /** What an event says to the stream with this id. */
  function Heard(s: State, id: nat, e: Event): seq<StreamQueues.Event> {
    if id !in s.queues then []
    else
      var registered := id in s.streams;
      match e
      case Message(StreamFrame(i, chunk)) => if i == id && registered && s.life != Idle then [Push(chunk)] else []
      case Message(ResultFrame(i, result)) => if i == id && registered && s.life != Idle then [End(result)] else []
      case Message(ErrorFrame(i, error)) => if i == id && registered && s.life != Idle then [Fail(error)] else []
      case SocketClosed =>
        if registered && s.life != Idle && s.life != Closed then [Fail(CloseError(s))] else []
      case Consume(i, move) => if i == id && (move.Pull? || move.Resume? || move.CloseConsumer?) then [move] else []
      case _ => []
  }

  /** Everything a stream hears in a run. */
  function StreamEvents(s: State, es: seq<Event>, id: nat): seq<StreamQueues.Event> {
    if es == [] then []
    else
      var before := es[..|es| - 1];
      StreamEvents(s, before, id) + Heard(Run(s, before), id, es[|es| - 1])
  }

  function Replay(q: Queue, heard: seq<StreamQueues.Event>): Queue {
    if heard == [] then q else StreamQueues.Step(q, heard[0])
  }

  lemma FramesReachTheirStream(s: State, id: nat, frame: Frame)
    requires id in s.queues && s.life != Idle
    ensures var s' := OnMessage(s, frame);
      id in s'.queues && s'.queues[id] == Replay(s.queues[id], Heard(s, id, Message(frame)))
  {
    match frame
    case StreamFrame(i, chunk) => OnQueueReaches(s, i, Push(chunk), id);
    case ResultFrame(i, result) =>
      OnQueueReaches(s, i, End(result), id);
      SettleCallFrame(OnQueue(s, i, End(result)), i, Resolved(result));
    case ErrorFrame(i, error) =>
      OnQueueReaches(s, i, Fail(error), id);
      SettleCallFrame(OnQueue(s, i, Fail(error)), i, RejectedByFrame(error));
    case _ =>
  }

  lemma OnQueueReaches(s: State, i: nat, e: StreamQueues.Event, id: nat)
    requires id in s.queues
    ensures var s' := OnQueue(s, i, e);
      id in s'.queues
      && s'.queues[id] == if i == id && id in s.streams then StreamQueues.Step(s.queues[id], e) else s.queues[id]
  {
  }

  lemma CloseReachesTheStream(s: State, id: nat)
    requires id in s.queues && s.life != Idle
    ensures var s' := Step(s, SocketClosed);
      id in s'.queues && s'.queues[id] == Replay(s.queues[id], Heard(s, id, SocketClosed))
  {
    if s.life != Closed {
      CloseLeavesTheRest(s.(socketOpen := false));
    }
  }

  lemma StreamStep(s: State, id: nat, e: Event)
    requires id in s.queues && id <= s.seqNo
    ensures var s' := Step(s, e);
      id in s'.queues && s'.queues[id] == Replay(s.queues[id], Heard(s, id, e))
  {
    match e
    case Message(frame) =>
      if s.life != Idle {
        FramesReachTheirStream(s, id, frame);
      }
    case SocketClosed =>
      if s.life != Idle {
        CloseReachesTheStream(s, id);
      }
    case _ =>
  }

  lemma RunReplays(heard: seq<StreamQueues.Event>, more: seq<StreamQueues.Event>)
    requires |more| <= 1
    ensures StreamQueues.Run(EMPTY_QUEUE, heard + more) == Replay(StreamQueues.Run(EMPTY_QUEUE, heard), more)
  {
    if more == [] {
      assert heard + more == heard;
    } else {
      assert heard + more == heard + [more[0]];
      assert (heard + more)[..|heard|] == heard;
    }
  }

  lemma QueuesAreNumbered(es: seq<Event>)
    ensures forall id :: id in Run(NEW, es).queues ==> id <= Run(NEW, es).seqNo
  {
    RunKeepsInv(es);
  }

  ghost predicate HasHeard(s: State, id: nat, heard: seq<StreamQueues.Event>) {
    id in s.queues && s.queues[id] == StreamQueues.Run(EMPTY_QUEUE, heard)
  }

  lemma HearsTheNext(s: State, id: nat, heard: seq<StreamQueues.Event>, e: Event)
    requires HasHeard(s, id, heard) && id <= s.seqNo
    ensures HasHeard(Step(s, e), id, heard + Heard(s, id, e))
  {
    StreamStep(s, id, e);
    RunReplays(heard, Heard(s, id, e));
  }

  lemma {:induction false} RunHears(s: State, es: seq<Event>, id: nat)
    requires Inv(s) && HasHeard(s, id, [])
    ensures Inv(Run(s, es)) && HasHeard(Run(s, es), id, StreamEvents(s, es, id))
  {
    if es != [] {
      var before, last := es[..|es| - 1], es[|es| - 1];
      RunHears(s, before, id);
      StepKeepsInv(Run(s, before), last);
      HearsTheNext(Run(s, before), id, StreamEvents(s, before, id), last);
    }
  }

  lemma StreamHears(begun: State, more: seq<Event>, id: nat, s: State, heard: seq<StreamQueues.Event>)
    requires Inv(begun) && HasHeard(begun, id, []) && s == Run(begun, more) && heard == StreamEvents(begun, more, id)
    ensures HasHeard(s, id, heard)
  {
    RunHears(begun, more, id);
  }

  /** Multiplexing: among all the calls and streams of the connection, a stream's queue is in
      exactly the state its own frames, the close and its own consumer put it in. */
  lemma StreamHearsOnlyItsOwn(es: seq<Event>, more: seq<Event>)
    ensures var begun := Run(NEW, es + [CallStream]);
      HasHeard(Run(NEW, es + [CallStream] + more), begun.seqNo, StreamEvents(begun, more, begun.seqNo))
  {
    var begun := Run(NEW, es + [CallStream]);
    StreamBegins(es, begun);
    RunConcat(NEW, es + [CallStream], more);
    StreamHears(begun, more, begun.seqNo, Run(NEW, es + [CallStream] + more), StreamEvents(begun, more, begun.seqNo));
  }

  /** So a streaming call that returns has yielded exactly the chunks of its own frames that
      arrived before its own result, in order. */
  lemma StreamingCallYieldsItsChunks(es: seq<Event>, more: seq<Event>)
    ensures var begun := Run(NEW, es + [CallStream]); var id := begun.seqNo;
      var q := Run(NEW, es + [CallStream] + more).queues;
      && id in q
      && (q[id].consumer.Returned? ==>
            && q[id].yielded == PushedBeforeEnd(StreamEvents(begun, more, id))
            && OutcomeOf(StreamEvents(begun, more, id)) == Some(q[id].consumer))
  {
    var begun := Run(NEW, es + [CallStream]);
    StreamHearsOnlyItsOwn(es, more);
    if StreamQueues.Run(EMPTY_QUEUE, StreamEvents(begun, more, begun.seqNo)).consumer.Returned? {
      EndedStreamYieldsEverything(StreamEvents(begun, more, begun.seqNo));
    }
  }

  /** A frame with this id settled its stream: a result or an error that arrived while its
      consumer had not let go. */
  predicate AnsweredWhileOpen(s: State, es: seq<Event>, id: nat) {
    if es == [] then false
    else
      var before := es[..|es| - 1];
      AnsweredWhileOpen(s, before, id) || (Names(es[|es| - 1], id) && id in Run(s, before).streams)
  }

  lemma OnlyEndsSettle(q: Queue, e: StreamQueues.Event)
    ensures HasOutcome(StreamQueues.Step(q, e)) <==> HasOutcome(q) || e.End? || e.Fail?
  {
  }

  lemma ClosedStreamHears(s: State, id: nat, e: Event)
    requires s.life == Closed && id in s.queues && id <= s.seqNo
    ensures var s' := Step(s, e);
      id in s'.queues
      && (HasOutcome(s'.queues[id]) <==> HasOutcome(s.queues[id]) || (Names(e, id) && id in s.streams))
  {
    StreamStep(s, id, e);
    var heard := Heard(s, id, e);
    if heard != [] {
      OnlyEndsSettle(s.queues[id], heard[0]);
    }
    assert Names(e, id) && id in s.streams <==> heard != [] && (heard[0].End? || heard[0].Fail?);
  }

  ghost predicate ClosedWith(s: State, id: nat, at: Option<nat>) {
    Inv(s) && s.life == Closed && id in s.queues && s.seqAtClose == at
  }

  lemma {:induction false} StreamAfterCloseHears(s: State, es: seq<Event>, id: nat)
    requires ClosedWith(s, id, s.seqAtClose) && !HasOutcome(s.queues[id])
    ensures ClosedWith(Run(s, es), id, s.seqAtClose)
    ensures HasOutcome(Run(s, es).queues[id]) <==> AnsweredWhileOpen(s, es, id)
  {
    if es != [] {
      var before, last := es[..|es| - 1], es[|es| - 1];
      StreamAfterCloseHears(s, before, id);
      StepKeepsInv(Run(s, before), last);
      ClosedForever(Run(s, before), last);
      ClosedStreamHears(Run(s, before), id, last);
    }
  }

  lemma UnsettledKeepsWaiting(s: State, id: nat)
    requires Inv(s) && id in s.queues && !HasOutcome(s.queues[id])
    ensures !s.queues[id].consumer.Returned? && !s.queues[id].consumer.Thrown?
  {
  }

  /** A streaming call opened once the close has run is never written to the socket, and it is
      settled if and only if a result or an error with its own id still arrives while its
      consumer is there. Until then its consumer neither returns nor throws. */
  lemma StreamAfterTheCloseIsNeverSent(es: seq<Event>, more: seq<Event>)
    requires Run(NEW, es).life == Closed
    ensures var begun := Run(NEW, es + [CallStream]); var s := Run(NEW, es + [CallStream] + more);
      var id := begun.seqNo;
      && id !in s.sent && id in s.queues
      && (HasOutcome(s.queues[id]) <==> AnsweredWhileOpen(begun, more, id))
      && (!HasOutcome(s.queues[id]) ==> !s.queues[id].consumer.Returned? && !s.queues[id].consumer.Thrown?)
  {
    var begun := Run(NEW, es + [CallStream]);
    RunKeepsInv(es);
    RunKeepsInv(es + [CallStream]);
    RunSnoc(NEW, es, CallStream);
    RunConcat(NEW, es + [CallStream], more);
    StreamAfterCloseHears(begun, more, begun.seqNo);
    if !HasOutcome(Run(begun, more).queues[begun.seqNo]) {
      UnsettledKeepsWaiting(Run(begun, more), begun.seqNo);
    }
  }

  /** A connection that opened and closed with nothing in flight. */
  const OPENED_AND_CLOSED := [Connect(false), SocketOpened, SocketClosed]

  lemma OpenedAndClosed()
    ensures var s := Run(NEW, OPENED_AND_CLOSED);
      s.life == Closed && s.seqNo == 0 && s.pending == {} && s.streams == {} && s.sent == {} && !s.socketOpen
  {
    var live := Step(Step(NEW, Connect(false)), SocketOpened);
    RunSnoc(NEW, [], Connect(false));
    RunSnoc(NEW, [Connect(false)], SocketOpened);
    RunSnoc(NEW, [Connect(false), SocketOpened], SocketClosed);
    assert Run(NEW, []) == NEW && [] + [Connect(false)] == [Connect(false)];
    assert [Connect(false)] + [SocketOpened] == [Connect(false), SocketOpened];
    assert [Connect(false), SocketOpened] + [SocketClosed] == OPENED_AND_CLOSED;
    QuietClose(live);
  }

  lemma QuietClose(s: State)
    requires s.life == Open && s.seqNo == 0 && s.pending == {} && s.sent == {}
    ensures var s' := Step(s, SocketClosed);
      && s'.life == Closed && s'.seqNo == 0 && s'.pending == {} && s'.streams == {} && s'.sent == {}
      && !s'.socketOpen
  {
    var t := s.(socketOpen := false);
    CloseIsRejectAll(t, RejectAll(MarkClosed(t), Ascending(t.pending, 0, 1), CloseCause(t)));
    CloseLeavesTheRest(t);
  }

  /** A call made then hangs: it is pending, was never sent, and nothing is left that would
      settle it. */
  lemma LateCallHangs()
    ensures var s := Run(NEW, OPENED_AND_CLOSED + [Call]);
      s.life == Closed && s.pending == {1} && s.sent == {}
  {
    OpenedAndClosed();
    RunSnoc(NEW, OPENED_AND_CLOSED, Call);
  }

  /** A streaming call opened then parks its consumer on a stream that was never asked for. */
  lemma LateStreamParks()
    ensures var s := Run(NEW, OPENED_AND_CLOSED + [CallStream] + [Consume(1, Pull)]);
      && s.life == Closed && s.streams == {1} && s.sent == {}
      && 1 in s.queues && s.queues[1].consumer.Parked? && !HasOutcome(s.queues[1])
  {
    OpenedAndClosed();
    RunSnoc(NEW, OPENED_AND_CLOSED, CallStream);
    RunSnoc(NEW, OPENED_AND_CLOSED + [CallStream], Consume(1, Pull));
  }
}
