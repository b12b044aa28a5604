/** The single-consumer async queue behind a streaming response. */
module StreamQueues {
  import opened Wrappers

  /** The consumer of `iterate()`: between pulls, parked on a promise, woken with a result it
      has not seen yet (None stands for `done`), or finished one way or another. */
  datatype Consumer =
    | AtYield
    | Parked
    | Woken(chunk: Option<string>)
    | Returned(terminal: string)
    | Thrown(error: string)
    | Left

  /** `accepted`, `yielded` and `inHandAtFail` are history: the chunks pushed before the end,
      those the consumer received, and whether `fail` found a chunk already handed to the
      waiter but not yet yielded. */
  datatype Queue = Queue(
    buffer: seq<string>,
    failure: Option<string>,
    finished: bool,
    terminal: string,
    consumer: Consumer,
    accepted: seq<string>,
    yielded: seq<string>,
    inHandAtFail: bool)

  const EMPTY_QUEUE := Queue([], None, false, "", AtYield, [], [], false)

  datatype Event =
    | Push(chunk: string)
    | End(result: string)
    | Fail(error: string)
    | Pull
    | Resume
    | CloseConsumer

  function Wake(q: Queue): Queue {
    if q.consumer.Parked? then q.(consumer := Woken(None)) else q
  }

  function Step(q: Queue, e: Event): Queue {
    match e
    case Push(x) =>
      if q.finished || q.failure.Some? then q
      else if q.consumer.Parked? then q.(consumer := Woken(Some(x)), accepted := q.accepted + [x])
      else q.(buffer := q.buffer + [x], accepted := q.accepted + [x])
    case End(r) =>
      if q.finished || q.failure.Some? then q else Wake(q.(finished := true, terminal := r))
    case Fail(err) =>
      if q.finished || q.failure.Some? then q
      else Wake(q.(failure := Some(err), inHandAtFail := q.consumer.Woken? && q.consumer.chunk.Some?))
    case Pull =>
      if !q.consumer.AtYield? then q
      else if q.buffer != [] then q.(buffer := q.buffer[1..], yielded := q.yielded + [q.buffer[0]])
      else if q.failure.Some? then q.(consumer := Thrown(q.failure.value))
      else if q.finished then q.(consumer := Returned(q.terminal))
      else q.(consumer := Parked)
    case Resume =>
      if !q.consumer.Woken? then q
      else if q.failure.Some? then q.(consumer := Thrown(q.failure.value))
      else if q.consumer.chunk.None? then q.(consumer := Returned(q.terminal))
      else q.(consumer := AtYield, yielded := q.yielded + [q.consumer.chunk.value])
    case CloseConsumer =>
      if q.consumer.AtYield? then q.(consumer := Left) else q
  }

  function Run(q: Queue, es: seq<Event>): Queue {
    if es == [] then q else Step(Run(q, es[..|es| - 1]), es[|es| - 1])
  }

  function InHand(q: Queue): seq<string> {
    if q.consumer.Woken? && q.consumer.chunk.Some? then [q.consumer.chunk.value] else []
  }

  ghost predicate Inv(q: Queue) {
    && !(q.finished && q.failure.Some?)
    && (q.failure.None? ==> !q.inHandAtFail)
    && match q.consumer
       case AtYield =>
         q.yielded + q.buffer == q.accepted && !q.inHandAtFail
       case Parked =>
         q.yielded == q.accepted && q.buffer == [] && q.failure.None? && !q.finished
       case Woken(c) =>
         && q.yielded + InHand(q) + q.buffer == q.accepted
         && (c.None? ==> q.buffer == [] && (q.finished || q.failure.Some?) && !q.inHandAtFail)
         && (c.Some? && q.failure.Some? ==> q.inHandAtFail)
       case Returned(v) =>
         q.finished && v == q.terminal && q.yielded == q.accepted
       case Thrown(err) =>
         && q.failure == Some(err) && q.yielded <= q.accepted
         && (q.yielded == q.accepted <==> !q.inHandAtFail)
       case Left =>
         q.yielded <= q.accepted
  }

  lemma StepKeepsInv(q: Queue, e: Event)
    requires Inv(q)
    ensures Inv(Step(q, e))
  {
  }

  lemma {:induction false} RunKeepsInv(es: seq<Event>)
    ensures Inv(Run(EMPTY_QUEUE, es))
  {
    if es != [] {
      RunKeepsInv(es[..|es| - 1]);
      StepKeepsInv(Run(EMPTY_QUEUE, es[..|es| - 1]), es[|es| - 1]);
    }
  }

  /** How an event settles the stream, as the consumer will see it. */
  function Settles(e: Event): Option<Consumer> {
    match e
    case End(result) => Some(Returned(result))
    case Fail(error) => Some(Thrown(error))
    case _ => None
  }

  /** What settled the stream: the first `end` or `fail`. */
  function OutcomeOf(es: seq<Event>): Option<Consumer> {
    if es == [] then None
    else
      var earlier := OutcomeOf(es[..|es| - 1]);
      if earlier.Some? then earlier else Settles(es[|es| - 1])
  }

  /** The chunks pushed while the stream was still open, in order. */
  function PushedBeforeEnd(es: seq<Event>): seq<string> {
    if es == [] then []
    else
      var before, e := es[..|es| - 1], es[|es| - 1];
      PushedBeforeEnd(before) + if e.Push? && OutcomeOf(before).None? then [e.chunk] else []
  }

  /** The consumer as a cursor over the chunks that were pushed: between pulls, waiting for the one
      after the last it took, or gone, and how. */
  datatype Place = Between | Asking | Gone(how: Consumer)

  datatype Cursor = Cursor(place: Place, taken: nat)

  /** The reference, with neither buffer nor waiter: a pull takes the next chunk, or the outcome
      once there is none left, or waits; a waiting consumer resumes with the failure, the next
      chunk or the end, in that order. */
  function Moved(c: Cursor, e: Event, more: bool, outcome: Option<Consumer>): Cursor {
    match e
    case Pull =>
      if c.place != Between then c
      else if more then Cursor(Between, c.taken + 1)
      else if outcome.Some? then Cursor(Gone(outcome.value), c.taken)
      else Cursor(Asking, c.taken)
    case Resume =>
      if c.place != Asking then c
      else if outcome.Some? && outcome.value.Thrown? then Cursor(Gone(outcome.value), c.taken)
      else if more then Cursor(Between, c.taken + 1)
      else if outcome.Some? then Cursor(Gone(outcome.value), c.taken)
      else c
    case CloseConsumer => if c.place == Between then Cursor(Gone(Left), c.taken) else c
    case _ => c
  }

  function CursorAfter(es: seq<Event>): Cursor {
    if es == [] then Cursor(Between, 0)
    else
      var before := es[..|es| - 1];
      var c := CursorAfter(before);
      Moved(c, es[|es| - 1], c.taken < |PushedBeforeEnd(before)|, OutcomeOf(before))
  }

  /** The event fails the stream while a chunk has reached the waiting consumer. */
  predicate Overtakes(e: Event, c: Cursor, more: bool, outcome: Option<Consumer>) {
    e.Fail? && outcome.None? && c.place == Asking && more
  }

  predicate OvertookAChunk(es: seq<Event>) {
    && es != []
    && var before := es[..|es| - 1];
       var c := CursorAfter(before);
       OvertookAChunk(before) || Overtakes(es[|es| - 1], c, c.taken < |PushedBeforeEnd(before)|, OutcomeOf(before))
  }

  predicate ConsumerAt(consumer: Consumer, c: Cursor, pushed: seq<string>, settled: bool) {
    match c.place
    case Between => consumer == AtYield
    case Gone(how) => consumer == how && (how.Returned? || how.Thrown? || how.Left?)
    case Asking =>
      if c.taken < |pushed| then consumer == Woken(Some(pushed[c.taken]))
      else consumer == if settled then Woken(None) else Parked
  }

  ghost predicate Tracks(q: Queue, pushed: seq<string>, outcome: Option<Consumer>, c: Cursor, overtook: bool) {
    && q.accepted == pushed && q.inHandAtFail == overtook
    && (match outcome
        case None => !q.finished && q.failure.None?
        case Some(Returned(result)) => q.finished && q.failure.None? && q.terminal == result
        case Some(Thrown(error)) => !q.finished && q.failure == Some(error)
        case _ => false)
    && c.taken <= |pushed| && q.yielded == pushed[..c.taken]
    && ConsumerAt(q.consumer, c, pushed, outcome.Some?)
  }

  lemma StepTracks(q: Queue, e: Event, pushed: seq<string>, outcome: Option<Consumer>, c: Cursor, overtook: bool)
    requires Inv(q) && Tracks(q, pushed, outcome, c, overtook)
    ensures var more := c.taken < |pushed|;
      Tracks(Step(q, e), pushed + if e.Push? && outcome.None? then [e.chunk] else [],
             if outcome.Some? then outcome else Settles(e), Moved(c, e, more, outcome),
             overtook || Overtakes(e, c, more, outcome))
  {
    assert c.taken < |pushed| ==> pushed[..c.taken] + [pushed[c.taken]] == pushed[..c.taken + 1];
    assert e.Push? ==> (pushed + [e.chunk])[..c.taken] == pushed[..c.taken];
    assert q.consumer.AtYield? && c.taken < |pushed| ==> q.buffer[0] == (q.yielded + q.buffer)[c.taken];
  }

  /** The queue is a cursor over the pushed chunks, for every interleaving of the socket and the
      consumer: what was yielded is what the cursor has passed, and the consumer parks, wakes,
      returns and throws exactly as the reference says, with the result or error that came first. */
  lemma {:induction false} QueueIsACursor(es: seq<Event>)
    ensures Tracks(Run(EMPTY_QUEUE, es), PushedBeforeEnd(es), OutcomeOf(es), CursorAfter(es), OvertookAChunk(es))
  {
    if es != [] {
      var before, e := es[..|es| - 1], es[|es| - 1];
      QueueIsACursor(before);
      RunKeepsInv(before);
      StepTracks(Run(EMPTY_QUEUE, before), e, PushedBeforeEnd(before), OutcomeOf(before), CursorAfter(before),
                 OvertookAChunk(before));
    }
  }

  /** A stream that returns has yielded exactly the chunks pushed before `end`, in order, and
      returns what `end` was given; for every interleaving of the socket and the consumer. */
  lemma EndedStreamYieldsEverything(es: seq<Event>)
    requires Run(EMPTY_QUEUE, es).consumer.Returned?
    ensures var q := Run(EMPTY_QUEUE, es); q.yielded == PushedBeforeEnd(es) && OutcomeOf(es) == Some(q.consumer)
  {
    RunKeepsInv(es);
    QueueIsACursor(es);
  }

  /** A stream that throws does so with the first failure, and has yielded a prefix of what was
      pushed: all of it, exactly when the failure did not overtake a chunk. */
  lemma FailedStreamYieldsAPrefix(es: seq<Event>)
    requires Run(EMPTY_QUEUE, es).consumer.Thrown?
    ensures var q := Run(EMPTY_QUEUE, es);
      && OutcomeOf(es) == Some(q.consumer)
      && q.yielded <= PushedBeforeEnd(es)
      && (q.yielded == PushedBeforeEnd(es) <==> !OvertookAChunk(es))
  {
    RunKeepsInv(es);
    QueueIsACursor(es);
  }

  /** Such a loss: the consumer parks, a chunk wakes it, the failure overtakes the chunk. */
  lemma FailDropsTheHandedChunk()
    ensures var q := Step(Step(Step(Step(EMPTY_QUEUE, Pull), Push("x")), Fail("closed")), Resume);
      q.consumer == Thrown("closed") && q.accepted == ["x"] && q.yielded == []
  {
  }

  /** A parked consumer has nothing to read and a stream that may still produce. */
  lemma ParkedMeansEmptyAndOpen(es: seq<Event>)
    requires Run(EMPTY_QUEUE, es).consumer.Parked?
    ensures var q := Run(EMPTY_QUEUE, es); q.buffer == [] && q.failure.None? && !q.finished
  {
    RunKeepsInv(es);
  }

  function Pulls(q: Queue, n: nat): Queue
    decreases n
  {
    if n == 0 then q else Pulls(Step(q, Pull), n - 1)
  }

  /** Nobody hangs on a settled stream: once it has ended or failed, a consumer between pulls
      drains what is buffered and is finished by its next pull. */
  lemma {:induction false} SettledStreamDrains(q: Queue)
    requires Inv(q) && q.consumer.AtYield? && (q.finished || q.failure.Some?)
    ensures var q' := Pulls(q, |q.buffer| + 1);
      && q'.yielded == q.accepted
      && q'.consumer == if q.failure.Some? then Thrown(q.failure.value) else Returned(q.terminal)
    decreases |q.buffer|
  {
    if q.buffer != [] {
      StepKeepsInv(q, Pull);
      SettledStreamDrains(Step(q, Pull));
    } else {
      assert Pulls(q, 1) == Pulls(Step(q, Pull), 0);
    }
  }

  /** The queue as an object. `Push`, `End` and `Fail` run in socket handlers; `Pull` and
      `Resume` are the two stretches of the consumer's generator. */
  class StreamQueue {
    var buffer: seq<string>
    var failure: Option<string>
    var finished: bool
    var terminal: string
    var consumer: Consumer
    ghost var accepted: seq<string>
    var yielded: seq<string>
    ghost var inHandAtFail: bool

    ghost function View(): Queue
      reads this
    {
      Queue(buffer, failure, finished, terminal, consumer, accepted, yielded, inHandAtFail)
    }

    constructor ()
      ensures View() == EMPTY_QUEUE
    {
      buffer, failure, finished, terminal, consumer := [], None, false, "", AtYield;
      accepted, yielded, inHandAtFail := [], [], false;
    }

    method Push(chunk: string)
      modifies this
      ensures View() == Step(old(View()), Event.Push(chunk))
    {
      if finished || failure.Some? {
        return;
      }
      accepted := accepted + [chunk];
      if consumer.Parked? {
        consumer := Woken(Some(chunk));
      } else {
        buffer := buffer + [chunk];
      }
    }

    method End(result: string)
      modifies this
      ensures View() == Step(old(View()), Event.End(result))
    {
      if finished || failure.Some? {
        return;
      }
      finished, terminal := true, result;
      WakeWaiter();
    }

    method Fail(error: string)
      modifies this
      ensures View() == Step(old(View()), Event.Fail(error))
    {
      if finished || failure.Some? {
        return;
      }
      inHandAtFail := consumer.Woken? && consumer.chunk.Some?;
      failure := Some(error);
      WakeWaiter();
    }

    method WakeWaiter()
      modifies this`consumer
      ensures View() == Wake(old(View()))
    {
      if consumer.Parked? {
        consumer := Woken(None);
      }
    }

    /** The consumer asks for the next chunk: from the buffer, or the outcome, or it parks. */
    method Pull()
      requires consumer.AtYield?
      modifies this
      ensures View() == Step(old(View()), Event.Pull)
    {
      if |buffer| > 0 {
        yielded := yielded + [buffer[0]];
        buffer := buffer[1..];
      } else if failure.Some? {
        consumer := Thrown(failure.value);
      } else if finished {
        consumer := Returned(terminal);
      } else {
        consumer := Parked;
      }
    }

    method Resume()
      requires consumer.Woken?
      modifies this
      ensures View() == Step(old(View()), Event.Resume)
    {
      if failure.Some? {
        consumer := Thrown(failure.value);
      } else if consumer.chunk.None? {
        consumer := Returned(terminal);
      } else {
        yielded := yielded + [consumer.chunk.value];
        consumer := AtYield;
      }
    }
  }
}
