/** The transport's run, told by its events alone: how the connection came and went, which calls
    were written and how each was answered, and what every stream heard. Nothing here looks at the
    transport's state; the theorems say that the state agrees. */
module TransportHistory {
  import opened Wrappers
  import StreamQueues
  import opened Transport

  predicate Begun(es: seq<Event>) {
    es != [] && (Begun(es[..|es| - 1]) || es[|es| - 1].Connect?)
  }

  /** The socket of a begun connection closes, for the first time. */
  predicate Ends(es: seq<Event>, e: Event)
    decreases |es|, 1
  {
    e == SocketClosed && Begun(es) && !Ended(es)
  }

  predicate Ended(es: seq<Event>)
    decreases |es|, 0
  {
    es != [] && (Ended(es[..|es| - 1]) || Ends(es[..|es| - 1], es[|es| - 1]))
  }

  /** The server said that the room was claimed elsewhere. */
  predicate Superseded(es: seq<Event>) {
    && es != []
    && (Superseded(es[..|es| - 1]) || (es[|es| - 1] == Message(SupersededFrame) && Begun(es[..|es| - 1])))
  }

  /** What is written goes out: the socket has opened, and is neither closing nor closed. */
  predicate Writable(es: seq<Event>) {
    && es != []
    && var before := es[..|es| - 1];
       match es[|es| - 1]
       case SocketOpened => Begun(before) && !Ended(before)
       case SocketClosing => false
       case SocketClosed => false
       case _ => Writable(before)
  }

  predicate IsRequest(e: Event) {
    e.Call? || e.CallStream?
  }

  /** How many requests were made: each takes the next number. */
  function Requests(es: seq<Event>): nat {
    if es == [] then 0 else Requests(es[..|es| - 1]) + if IsRequest(es[|es| - 1]) then 1 else 0
  }

  predicate SentIn(es: seq<Event>, id: nat) {
    && es != []
    && var before := es[..|es| - 1];
       SentIn(before, id) || (IsRequest(es[|es| - 1]) && id == Requests(before) + 1 && Writable(before))
  }

  /** What the close listeners were told: once, whether the room had been lost and whether the
      caller had asked for the close. */
  function NoticesIn(es: seq<Event>): seq<CloseInfo> {
    if es == [] then []
    else
      var before := es[..|es| - 1];
      NoticesIn(before)
      + if Ends(before, es[|es| - 1]) then [CloseInfo(Superseded(before), CloseByCaller in before)] else []
  }

  datatype Opening = NotAsked | Waits(embodying: bool) | Told(embodying: bool, cause: Cause)

  /** The connect waits for the first event that decides. */
  function OpeningOf(es: seq<Event>): Opening {
    if es == [] then NotAsked
    else
      var p, e := OpeningOf(es[..|es| - 1]), es[|es| - 1];
      if p.NotAsked? && e.Connect? then Waits(e.embodying)
      else if p.Waits? && Decision(p.embodying, e).Some? then Told(p.embodying, Decision(p.embodying, e).value)
      else p
  }

  function WhyEnded(es: seq<Event>): Cause {
    if Superseded(es) then RejectedBySupersede else RejectedByClose
  }

  /** What an event says to the call with this id. */
  function AnswerIn(es: seq<Event>, id: nat, e: Event): Option<Cause> {
    match e
    case Message(ResultFrame(i, result)) => if i == id && Begun(es) then Some(Resolved(result)) else None
    case Message(ErrorFrame(i, error)) => if i == id && Begun(es) then Some(RejectedByFrame(error)) else None
    case SocketClosed => if Ends(es, e) then Some(WhyEnded(es)) else None
    case _ => None
  }

  datatype Course = NotMade | Pending | Settled(cause: Cause)

  /** A call is settled by its first answer. */
  function CallOf(es: seq<Event>, id: nat): Course {
    if es == [] then NotMade
    else
      var before, e := es[..|es| - 1], es[|es| - 1];
      var p := CallOf(before, id);
      if e.Call? && id == Requests(before) + 1 then Pending
      else if p.Pending? && AnswerIn(before, id, e).Some? then Settled(AnswerIn(before, id, e).value)
      else p
  }

  /** What an event says to the stream with this id. */
  function SaidTo(es: seq<Event>, id: nat, listening: bool, e: Event): seq<StreamQueues.Event> {
    match e
    case Message(StreamFrame(i, chunk)) => if i == id && listening && Begun(es) then [StreamQueues.Push(chunk)] else []
    case Message(ResultFrame(i, result)) => if i == id && listening && Begun(es) then [StreamQueues.End(result)] else []
    case Message(ErrorFrame(i, error)) => if i == id && listening && Begun(es) then [StreamQueues.Fail(error)] else []
    case SocketClosed =>
      if listening && Ends(es, e) then [StreamQueues.Fail(if Superseded(es) then "superseded" else "closed")] else []
    case Consume(i, move) => if i == id && (move.Pull? || move.Resume? || move.CloseConsumer?) then [move] else []
    case _ => []
  }

  datatype Stream = Stream(heard: seq<StreamQueues.Event>, listening: bool)

  /** A stream listens from its call until the close, or until its consumer is gone. */
  function StreamOf(es: seq<Event>, id: nat): Option<Stream> {
    if es == [] then None
    else
      var before, e := es[..|es| - 1], es[|es| - 1];
      var p := StreamOf(before, id);
      if e.CallStream? && id == Requests(before) + 1 then Some(Stream([], true))
      else if p.None? then None
      else
        var said := SaidTo(before, id, p.value.listening, e);
        var heard := p.value.heard + said;
        var left := e.Consume? && said != [] && StreamQueues.CursorAfter(heard).place.Gone?;
        Some(Stream(heard, p.value.listening && !left && !Ends(before, e)))
  }

  ghost predicate LifeFollows(es: seq<Event>, s: State) {
    && (s.life == Idle <==> !Begun(es))
    && (s.life == Closed <==> Ended(es))
    && s.superseded == Superseded(es)
    && s.closedByCaller == (CloseByCaller in es)
    && s.socketOpen == Writable(es)
    && s.seqNo == Requests(es)
    && s.notices == NoticesIn(es)
    && (forall id: nat :: id in s.sent <==> SentIn(es, id))
    && (Ended(es) ==> Begun(es))
  }

  ghost predicate OpeningFollows(es: seq<Event>, s: State) {
    match OpeningOf(es)
    case NotAsked => s.life == Idle && !s.pendingOpen
    case Waits(embodying) => s.life == Opening && s.pendingOpen && s.embodying == embodying && s.connectOutcome == None
    case Told(embodying, cause) =>
      s.life != Idle && !s.pendingOpen && s.embodying == embodying && s.connectOutcome == Some(cause)
  }

  ghost predicate CallFollows(es: seq<Event>, s: State, id: nat) {
    && (id in s.pending <==> CallOf(es, id).Pending?)
    && (forall cause :: Settlement(id, cause) in s.settlements <==> CallOf(es, id) == Settled(cause))
  }

  ghost predicate StreamFollows(es: seq<Event>, s: State, id: nat) {
    match StreamOf(es, id)
    case None => id !in s.queues
    case Some(Stream(heard, listening)) =>
      && id in s.queues && s.queues[id] == StreamQueues.Run(StreamQueues.EMPTY_QUEUE, heard)
      && (id in s.streams <==> listening)
  }

  ghost predicate Known(es: seq<Event>, s: State) {
    && Inv(s) && LifeFollows(es, s) && OpeningFollows(es, s)
    && (forall id: nat :: CallFollows(es, s, id))
    && (forall id: nat :: StreamFollows(es, s, id))
  }

  lemma MessageLife(s: State, frame: Frame)
    requires Inv(s) && s.life != Idle
    ensures var s' := OnMessage(s, frame);
      && s'.life != Idle && (s'.life == Closed <==> s.life == Closed)
      && s' == s.(life := s'.life, superseded := s.superseded || frame.SupersededFrame?, pendingOpen := s'.pendingOpen,
                  connectOutcome := s'.connectOutcome, pending := s'.pending, settlements := s'.settlements,
                  queues := s'.queues)
  {
    match frame
    case ResultFrame(id, result) => SettleCallFrame(OnQueue(s, id, StreamQueues.End(result)), id, Resolved(result));
    case ErrorFrame(id, error) => SettleCallFrame(OnQueue(s, id, StreamQueues.Fail(error)), id, RejectedByFrame(error));
    case _ =>
  }

  lemma CloseFollows(es: seq<Event>, s: State)
    requires Inv(s) && LifeFollows(es, s)
    ensures LifeFollows(es + [SocketClosed], Step(s, SocketClosed))
  {
    var more := es + [SocketClosed];
    assert more[..|more| - 1] == es;
    assert CloseByCaller in more <==> CloseByCaller in es;
    if s.life != Idle && s.life != Closed {
      CloseLeavesTheRest(s.(socketOpen := false));
    }
  }

  lemma MessageFollows(es: seq<Event>, frame: Frame, s: State)
    requires Inv(s) && LifeFollows(es, s)
    ensures LifeFollows(es + [Message(frame)], Step(s, Message(frame)))
  {
    var more := es + [Message(frame)];
    assert more[..|more| - 1] == es;
    assert CloseByCaller in more <==> CloseByCaller in es;
    if s.life != Idle {
      MessageLife(s, frame);
    }
  }

  lemma OneMoreLife(es: seq<Event>, e: Event, s: State)
    requires Inv(s) && LifeFollows(es, s)
    ensures LifeFollows(es + [e], Step(s, e))
  {
    var more := es + [e];
    assert more[..|more| - 1] == es;
    match e
    case SocketClosed => CloseFollows(es, s);
    case Message(frame) => MessageFollows(es, frame, s);
    case _ => assert CloseByCaller in more <==> CloseByCaller in es || e == CloseByCaller;
  }

  lemma OneMoreOpening(es: seq<Event>, e: Event, s: State)
    requires Inv(s) && OpeningFollows(es, s)
    ensures OpeningFollows(es + [e], Step(s, e))
  {
    assert (es + [e])[..|es|] == es;
    match OpeningOf(es)
    case Waits(_) => DecisionSettles(s, e);
    case Told(_, _) => SettledConnectStays(s, e);
    case NotAsked =>
  }

  lemma SameAnswer(es: seq<Event>, s: State, id: nat, e: Event)
    requires LifeFollows(es, s)
    ensures Answer(s, id, e) == AnswerIn(es, id, e)
  {
  }

  lemma SettleCallSpares(s: State, i: nat, cause: Cause, id: nat)
    requires id !in s.pending
    ensures var s' := SettleCall(s, i, cause);
      id !in s'.pending && forall c :: Settlement(id, c) in s'.settlements <==> Settlement(id, c) in s.settlements
  {
  }

  lemma CloseSpares(s: State, id: nat)
    requires SettledOnce(s) && s.life != Closed && id !in s.pending
    ensures var s' := HandleClose(s);
      id !in s'.pending && forall c :: Settlement(id, c) in s'.settlements <==> Settlement(id, c) in s.settlements
  {
    CloseSettlesCalls(s);
    var s' := HandleClose(s);
    forall c | Settlement(id, c) in s'.settlements
      ensures Settlement(id, c) in s.settlements
    {
      var i :| 0 <= i < |s'.settlements| && s'.settlements[i] == Settlement(id, c);
      assert i < |s.settlements|;
    }
  }

  lemma FrameSpares(s: State, id: nat, frame: Frame)
    requires id !in s.pending
    ensures var s' := OnMessage(s, frame);
      id !in s'.pending && forall c :: Settlement(id, c) in s'.settlements <==> Settlement(id, c) in s.settlements
  {
    match frame
    case ResultFrame(i, result) =>
      SettleCallSpares(OnQueue(s, i, StreamQueues.End(result)), i, Resolved(result), id);
    case ErrorFrame(i, error) =>
      SettleCallSpares(OnQueue(s, i, StreamQueues.Fail(error)), i, RejectedByFrame(error), id);
    case _ =>
  }

  lemma FrameKeepsTheStreams(s: State, frame: Frame)
    ensures OnMessage(s, frame).queues.Keys == s.queues.Keys
  {
    match frame
    case ResultFrame(i, result) => SettleCallFrame(OnQueue(s, i, StreamQueues.End(result)), i, Resolved(result));
    case ErrorFrame(i, error) => SettleCallFrame(OnQueue(s, i, StreamQueues.Fail(error)), i, RejectedByFrame(error));
    case _ =>
  }

  /** A call that is not waiting is settled by nothing. */
  lemma OnlyPendingIsSettled(s: State, id: nat, e: Event)
    requires Inv(s) && id !in s.pending && !(e.Call? && id == s.seqNo + 1)
    ensures var s' := Step(s, e);
      id !in s'.pending && forall c :: Settlement(id, c) in s'.settlements <==> Settlement(id, c) in s.settlements
  {
    match e
    case SocketClosed =>
      if s.life != Closed && s.life != Idle {
        CloseSpares(s.(socketOpen := false), id);
      }
    case Message(frame) =>
      if s.life != Idle {
        FrameSpares(s, id, frame);
      }
    case _ =>
  }

  lemma OneMoreAnswer(es: seq<Event>, e: Event, s: State, id: nat)
    requires Inv(s) && LifeFollows(es, s) && CallFollows(es, s, id) && CallOf(es, id).Pending?
    ensures CallFollows(es + [e], Step(s, e), id)
  {
    assert (es + [e])[..|es|] == es;
    SameAnswer(es, s, id, e);
    StepKeepsInv(s, e);
    FateStep(s, id, None, e);
    FateIsExact(Step(s, e), id, Answer(s, id, e));
  }

  lemma OneMoreCall(es: seq<Event>, e: Event, s: State, id: nat)
    requires Inv(s) && LifeFollows(es, s) && CallFollows(es, s, id)
    ensures CallFollows(es + [e], Step(s, e), id)
  {
    assert (es + [e])[..|es|] == es;
    if CallOf(es, id).Pending? {
      OneMoreAnswer(es, e, s, id);
    } else if !(e.Call? && id == s.seqNo + 1) {
      OnlyPendingIsSettled(s, id, e);
    }
  }

  lemma SameWords(es: seq<Event>, s: State, id: nat, e: Event)
    requires LifeFollows(es, s) && id in s.queues
    ensures Heard(s, id, e) == SaidTo(es, id, id in s.streams, e)
  {
  }

  /** Who still listens after an event. */
  lemma ListenersAfter(s: State, id: nat, e: Event)
    requires Inv(s) && id in s.queues
    ensures var s' := Step(s, e);
      var left := e.Consume? && Heard(s, id, e) != []
        && (s'.queues[id].consumer.Returned? || s'.queues[id].consumer.Thrown? || s'.queues[id].consumer.Left?);
      && id in s'.queues
      && (id in s'.streams <==>
            id in s.streams && !left && !(e == SocketClosed && s.life != Idle && s.life != Closed))
  {
    StreamStep(s, id, e);
    match e
    case SocketClosed =>
      if s.life != Closed && s.life != Idle {
        CloseLeavesTheRest(s.(socketOpen := false));
      }
    case Message(frame) =>
      if s.life != Idle {
        MessageLife(s, frame);
      }
    case _ =>
  }

  lemma ConsumerIsGone(heard: seq<StreamQueues.Event>, q: StreamQueues.Queue)
    requires q == StreamQueues.Run(StreamQueues.EMPTY_QUEUE, heard)
    ensures StreamQueues.CursorAfter(heard).place.Gone? <==>
            q.consumer.Returned? || q.consumer.Thrown? || q.consumer.Left?
  {
    StreamQueues.QueueIsACursor(heard);
  }

  lemma OneMoreWord(es: seq<Event>, e: Event, s: State, id: nat)
    requires Inv(s) && LifeFollows(es, s) && StreamFollows(es, s, id) && id in s.queues
    ensures StreamFollows(es + [e], Step(s, e), id)
  {
    assert (es + [e])[..|es|] == es;
    var heard := StreamOf(es, id).value.heard;
    SameWords(es, s, id, e);
    HearsTheNext(s, id, heard, e);
    ListenersAfter(s, id, e);
    ConsumerIsGone(heard + Heard(s, id, e), Step(s, e).queues[id]);
  }

  lemma NoNewStream(s: State, id: nat, e: Event)
    requires Inv(s) && id !in s.queues && !(e.CallStream? && id == s.seqNo + 1)
    ensures id !in Step(s, e).queues
  {
    match e
    case SocketClosed =>
      if s.life != Closed && s.life != Idle {
        CloseLeavesTheRest(s.(socketOpen := false));
      }
    case Message(frame) => FrameKeepsTheStreams(s, frame);
    case _ =>
  }

  lemma OneMoreStream(es: seq<Event>, e: Event, s: State, id: nat)
    requires Inv(s) && LifeFollows(es, s) && StreamFollows(es, s, id)
    ensures StreamFollows(es + [e], Step(s, e), id)
  {
    assert (es + [e])[..|es|] == es;
    if id in s.queues {
      OneMoreWord(es, e, s, id);
    } else if !(e.CallStream? && id == s.seqNo + 1) {
      NoNewStream(s, id, e);
    }
  }

  lemma {:induction false} RunIsKnown(es: seq<Event>)
    ensures Known(es, Run(NEW, es))
  {
    RunKeepsInv(es);
    if es == [] {
      assert forall id: nat :: CallFollows(es, NEW, id) && StreamFollows(es, NEW, id);
    } else {
      var before, e := es[..|es| - 1], es[|es| - 1];
      var s := Run(NEW, before);
      assert before + [e] == es;
      RunIsKnown(before);
      OneMoreLife(before, e, s);
      OneMoreOpening(before, e, s);
      forall id: nat
        ensures CallFollows(es, Step(s, e), id) && StreamFollows(es, Step(s, e), id)
      {
        OneMoreCall(before, e, s, id);
        OneMoreStream(before, e, s, id);
      }
    }
  }

  /** The close listeners, over every run: they are told once, at the close of a begun connection,
      whether the room had been lost and whether the caller had asked for the close by then. */
  lemma CloseIsReportedAsItWas(es: seq<Event>)
    ensures var s := Run(NEW, es);
      && s.notices == NoticesIn(es) && |s.notices| <= 1
      && (s.notices != [] <==> Ended(es)) && (s.life == Closed <==> Ended(es))
      && s.superseded == Superseded(es)
  {
    RunIsKnown(es);
    ToldOnce(es);
  }

  lemma {:induction false} ToldOnce(es: seq<Event>)
    ensures |NoticesIn(es)| == if Ended(es) then 1 else 0
  {
    if es != [] {
      ToldOnce(es[..|es| - 1]);
    }
  }

  /** Over every run: a request was written exactly if it was made while the socket was open. */
  lemma RequestsAreWrittenIffWritable(es: seq<Event>, id: nat)
    ensures var s := Run(NEW, es);
      (id in s.sent <==> SentIn(es, id)) && s.seqNo == Requests(es) && s.socketOpen == Writable(es)
  {
    RunIsKnown(es);
  }

  /** The connect, over every run: not asked for, waiting, or told the first decision. */
  lemma ConnectIsItsHistory(es: seq<Event>)
    ensures OpeningFollows(es, Run(NEW, es))
  {
    RunIsKnown(es);
  }

  /** Each call, over every run: it is pending from the moment it was made until its first answer,
      a result or an error with its own number or the close, and settled by exactly that one. */
  lemma CallIsItsHistory(es: seq<Event>, id: nat)
    ensures var s := Run(NEW, es);
      && (id in s.pending <==> CallOf(es, id).Pending?)
      && (forall cause :: Settlement(id, cause) in s.settlements <==> CallOf(es, id) == Settled(cause))
  {
    RunIsKnown(es);
    assert CallFollows(es, Run(NEW, es), id);
  }

  /** Each stream, over every run: its queue is what its own frames, the close and its own consumer
      make of it, and it is registered exactly from its call until the close, or until its consumer
      has returned, thrown or left. */
  lemma StreamIsItsHistory(es: seq<Event>, id: nat)
    ensures StreamFollows(es, Run(NEW, es), id)
  {
    RunIsKnown(es);
  }
}
