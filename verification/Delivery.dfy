/** Live delivery over one embodied connection: the cursor, and the heartbeat ticks that
    read past it. `setInterval` fires without waiting for the previous tick, so any
    number of ticks may be in flight, each between two of its awaits. */
module Delivery {
  import opened EventLog

  /** Where one tick is suspended: awaiting its renew, or awaiting the rows after the
      cursor value it asked with, or holding the rows it was sent. */
  datatype Tick =
    | Renewing
    | Asked(after: nat)
    | Fetched(after: nat, batch: seq<LoggedEvent>)

  datatype Session = Session(
    companion: string,
    limit: nat,
    start: nat,
    cursor: nat,
    ticks: map<nat, Tick>,
    nextTick: nat,
    live: bool,
    superseded: bool,
    pushed: seq<LoggedEvent>)

  datatype Reply = Held | Lost | Unreachable

  datatype SessionEvent =
    | Fire
    | Renewed(tick: nat, reply: Reply)
    | Read(tick: nat)
    | ReadFailed(tick: nat)
    | Deliver(tick: nat)
    | SocketClosed

  function Open(db: Db, companion: string, limit: nat): Session {
    var at := LatestSettledSeq(db, companion);
    Session(companion, limit, at, at, map[], 0, true, false, [])
  }

  function CursorAfter(cursor: nat, batch: seq<LoggedEvent>): nat {
    if batch == [] then cursor else batch[|batch| - 1].seqNo
  }

  function SessionStep(db: Db, ses: Session, e: SessionEvent): Session {
    match e
    case Fire =>
      if ses.live then ses.(ticks := ses.ticks[ses.nextTick := Renewing], nextTick := ses.nextTick + 1) else ses
    case Renewed(t, reply) =>
      if t !in ses.ticks || !ses.ticks[t].Renewing? then ses
      else (match reply
            case Held => ses.(ticks := ses.ticks[t := Asked(ses.cursor)])
            case Lost => ses.(ticks := ses.ticks - {t}, live := false, superseded := true)
            case Unreachable => ses.(ticks := ses.ticks - {t}))
    case Read(t) =>
      if t !in ses.ticks || !ses.ticks[t].Asked? then ses
      else
        var after := ses.ticks[t].after;
        ses.(ticks := ses.ticks[t := Fetched(after, ReadSince(db, ses.companion, after, ses.limit))])
    case ReadFailed(t) =>
      if t !in ses.ticks || !ses.ticks[t].Asked? then ses else ses.(ticks := ses.ticks - {t})
    case Deliver(t) =>
      if t !in ses.ticks || !ses.ticks[t].Fetched? then ses
      else
        var batch := ses.ticks[t].batch;
        ses.(ticks := ses.ticks - {t}, pushed := ses.pushed + batch, cursor := CursorAfter(ses.cursor, batch))
    case SocketClosed =>
      ses.(live := false)
  }

  datatype World = World(db: Db, ses: Session)

  datatype Move = Server(db: DbEvent) | Client(ses: SessionEvent)

  function Step(w: World, e: Move): World {
    match e
    case Server(d) => w.(db := DbStep(w.db, d))
    case Client(s) => w.(ses := SessionStep(w.db, w.ses, s))
  }

  function Run(w: World, es: seq<Move>): World {
    if es == [] then w else Step(Run(w, es[..|es| - 1]), es[|es| - 1])
  }

  /** Transaction ids rise with sequence numbers among one companion's rows. */
  ghost predicate InOrder(db: Db, c: string) {
    forall s: nat, t: nat :: Of(db, c, s) && Of(db, c, t) && s < t ==> db.rows[s].xid < db.rows[t].xid
  }

  /** An insert is in order when its seq is above every row the companion already has. */
  ghost predicate InsertsInOrder(db: Db, c: string, e: DbEvent) {
    e.Insert? && e.companion == c && e.seqNo in db.drawn ==> forall s: nat :: Of(db, c, s) ==> s < e.seqNo
  }

  ghost predicate RunInOrder(w: World, es: seq<Move>) {
    es == [] ||
    (var before := es[..|es| - 1];
     RunInOrder(w, before) &&
     (es[|es| - 1].Server? ==> InsertsInOrder(Run(w, before).db, w.ses.companion, es[|es| - 1].db)))
  }

  /** Every writer is a single-statement append: seq and xid are assigned together. */
  predicate AtomicWriters(es: seq<Move>) {
    forall i :: 0 <= i < |es| && es[i].Server? ==> !es[i].db.Draw? && !es[i].db.Insert?
  }

  /** Everything the companion has at or below v is past the horizon for good. */
  ghost predicate Behind(db: Db, c: string, v: nat) {
    && (v == 0 || Of(db, c, v))
    && forall s: nat :: Of(db, c, s) && s <= v ==> db.rows[s].xid < Xmin(db)
  }

  ghost predicate PushedUpTo(w: World, v: nat) {
    forall s: nat :: Visible(w.db, w.ses.companion, s) && w.ses.start < s <= v ==> EventAt(w.db, s) in w.ses.pushed
  }

  ghost predicate PushedOnlyCommitted(w: World) {
    forall e :: e in w.ses.pushed ==>
      w.ses.start < e.seqNo && Visible(w.db, w.ses.companion, e.seqNo) && e == EventAt(w.db, e.seqNo)
  }

  /** A fetched batch has no hole: it holds every committed row between the cursor value
      it was asked with and its own last row. */
  ghost predicate SolidBatch(db: Db, c: string, after: nat, batch: seq<LoggedEvent>) {
    && (forall e :: e in batch ==> after < e.seqNo && Visible(db, c, e.seqNo) && e == EventAt(db, e.seqNo))
    && (batch != [] ==>
          && Behind(db, c, batch[|batch| - 1].seqNo)
          && (forall s: nat :: Visible(db, c, s) && after < s <= batch[|batch| - 1].seqNo ==> EventAt(db, s) in batch))
  }

  ghost predicate TickOk(w: World, tick: Tick) {
    match tick
    case Renewing => true
    case Asked(a) =>
      w.ses.start <= a && Behind(w.db, w.ses.companion, a) && PushedUpTo(w, a)
    case Fetched(a, b) =>
      && w.ses.start <= a && Behind(w.db, w.ses.companion, a) && PushedUpTo(w, a)
      && SolidBatch(w.db, w.ses.companion, a, b)
  }

  ghost predicate Inv(w: World) {
    && Valid(w.db)
    && InOrder(w.db, w.ses.companion)
    && w.ses.start <= w.ses.cursor
    && Behind(w.db, w.ses.companion, w.ses.start)
    && Behind(w.db, w.ses.companion, w.ses.cursor)
    && PushedUpTo(w, w.ses.cursor)
    && PushedOnlyCommitted(w)
    && forall t :: t in w.ses.ticks ==> TickOk(w, w.ses.ticks[t])
  }

  lemma OpenEstablishesInv(db: Db, c: string, limit: nat)
    requires Valid(db) && InOrder(db, c)
    ensures Inv(World(db, Open(db, c, limit)))
  {
  }

  /** A database step changes nothing at or below a value that is behind the horizon. */
  lemma BehindIsStable(db: Db, c: string, e: DbEvent, v: nat)
    requires Valid(db) && InsertsInOrder(db, c, e) && Behind(db, c, v)
    ensures Behind(DbStep(db, e), c, v)
    ensures forall s: nat :: s <= v ==> (Visible(DbStep(db, e), c, s) <==> Visible(db, c, s))
    ensures forall s: nat :: s <= v && Visible(db, c, s) ==> DbStep(db, e).rows[s] == db.rows[s]
  {
    HorizonNeverMovesBack(db, e);
  }

  /** A row added under the next transaction id and above every row of the companion. */
  lemma NewestRowKeepsOrder(db: Db, c: string, n: nat, row: Row, db': Db)
    requires Valid(db) && InOrder(db, c) && row.xid == db.nextXid && db'.rows == db.rows[n := row]
    requires n !in db.rows && (row.companion == c ==> forall s: nat :: Of(db, c, s) ==> s < n)
    ensures InOrder(db', c)
  {
    forall s: nat, t: nat | Of(db', c, s) && Of(db', c, t) && s < t
      ensures db'.rows[s].xid < db'.rows[t].xid
    {
      if t == n {
        assert Of(db, c, s);
      } else {
        assert Of(db, c, t);
        assert s != n && Of(db, c, s);
      }
    }
  }

  lemma OrderIsKept(db: Db, c: string, e: DbEvent)
    requires Valid(db) && InsertsInOrder(db, c, e) && InOrder(db, c)
    ensures InOrder(DbStep(db, e), c)
  {
    match e
    case Insert(s, d, p) =>
      if s in db.drawn {
        NewestRowKeepsOrder(db, c, s, Row(db.nextXid, d, p), DbStep(db, e));
      }
    case Append(d, p) =>
      NewestRowKeepsOrder(db, c, db.nextSeq, Row(db.nextXid, d, p), DbStep(db, e));
    case _ =>
      assert DbStep(db, e).rows == db.rows;
  }

  /** What is committed stays committed, with the same payload. */
  lemma CommittedStays(db: Db, c: string, e: DbEvent, s: nat)
    requires Valid(db) && Visible(db, c, s)
    ensures Visible(DbStep(db, e), c, s) && DbStep(db, e).rows[s] == db.rows[s]
  {
  }

  lemma PushedUpToSurvivesDb(w: World, e: DbEvent, v: nat)
    requires Valid(w.db) && InsertsInOrder(w.db, w.ses.companion, e)
    requires Behind(w.db, w.ses.companion, v) && PushedUpTo(w, v)
    ensures PushedUpTo(Step(w, Server(e)), v)
  {
    BehindIsStable(w.db, w.ses.companion, e, v);
  }

  lemma SolidBatchSurvivesDb(db: Db, c: string, e: DbEvent, after: nat, batch: seq<LoggedEvent>)
    requires Valid(db) && InsertsInOrder(db, c, e) && SolidBatch(db, c, after, batch)
    ensures SolidBatch(DbStep(db, e), c, after, batch)
  {
    forall x | x in batch
      ensures after < x.seqNo && Visible(DbStep(db, e), c, x.seqNo) && x == EventAt(DbStep(db, e), x.seqNo)
    {
      CommittedStays(db, c, e, x.seqNo);
    }
    if batch != [] {
      BehindIsStable(db, c, e, batch[|batch| - 1].seqNo);
    }
  }

  lemma TickSurvivesDb(w: World, e: DbEvent, tick: Tick)
    requires Valid(w.db) && InsertsInOrder(w.db, w.ses.companion, e) && TickOk(w, tick)
    ensures TickOk(Step(w, Server(e)), tick)
  {
    if !tick.Renewing? {
      BehindIsStable(w.db, w.ses.companion, e, tick.after);
      PushedUpToSurvivesDb(w, e, tick.after);
    }
    if tick.Fetched? {
      SolidBatchSurvivesDb(w.db, w.ses.companion, e, tick.after, tick.batch);
    }
  }

  lemma DbStepKeepsInv(w: World, e: DbEvent)
    requires Inv(w) && InsertsInOrder(w.db, w.ses.companion, e)
    ensures Inv(Step(w, Server(e)))
  {
    var c := w.ses.companion;
    StepKeepsValid(w.db, e);
    OrderIsKept(w.db, c, e);
    BehindIsStable(w.db, c, e, w.ses.start);
    BehindIsStable(w.db, c, e, w.ses.cursor);
    forall t | t in w.ses.ticks
      ensures TickOk(Step(w, Server(e)), w.ses.ticks[t])
    {
      TickSurvivesDb(w, e, w.ses.ticks[t]);
    }
  }

  /** A snapshot read returns a hole-free batch. */
  lemma ReadIsSolid(db: Db, c: string, after: nat, limit: nat)
    requires Valid(db) && InOrder(db, c)
    ensures SolidBatch(db, c, after, ReadSince(db, c, after, limit))
  {
    var batch := ReadSince(db, c, after, limit);
    if batch != [] {
      var last := batch[|batch| - 1].seqNo;
      ReadIsScan(db, c, after, limit);
      ScanIsExact(db, c, after + 1, last + 1);
      assert batch[|batch| - 1] in batch;
      DeliverableIsBehind(db, c, last);
      forall s: nat | Visible(db, c, s) && after < s <= last
        ensures EventAt(db, s) in batch
      {
        assert Deliverable(db, c, s);
      }
    }
  }

  lemma DeliverableIsBehind(db: Db, c: string, s: nat)
    requires InOrder(db, c) && Deliverable(db, c, s)
    ensures Behind(db, c, s)
  {
  }

  /** Pushing a solid batch extends what has been pushed to the batch's last row. */
  lemma DeliverExtends(w: World, after: nat, batch: seq<LoggedEvent>, w': World)
    requires batch != [] && SolidBatch(w.db, w.ses.companion, after, batch) && w.ses.start <= after
    requires PushedUpTo(w, after) && PushedOnlyCommitted(w)
    requires w'.db == w.db && w'.ses.companion == w.ses.companion && w'.ses.start == w.ses.start
    requires w'.ses.pushed == w.ses.pushed + batch
    ensures PushedUpTo(w', batch[|batch| - 1].seqNo) && PushedOnlyCommitted(w')
    ensures after < batch[|batch| - 1].seqNo
  {
    assert batch[|batch| - 1] in batch;
  }

  lemma MorePushed(w: World, w': World, tick: Tick)
    requires TickOk(w, tick)
    requires w'.db == w.db && w'.ses.companion == w.ses.companion && w'.ses.start == w.ses.start
    requires w.ses.pushed <= w'.ses.pushed
    ensures TickOk(w', tick)
  {
    assert forall x :: x in w.ses.pushed ==> x in w'.ses.pushed;
  }

  lemma DeliverKeepsInv(w: World, t: nat)
    requires Inv(w) && t in w.ses.ticks && w.ses.ticks[t].Fetched?
    ensures Inv(Step(w, Client(Deliver(t))))
  {
    var w' := Step(w, Client(Deliver(t)));
    var after, batch := w.ses.ticks[t].after, w.ses.ticks[t].batch;
    assert TickOk(w, w.ses.ticks[t]);
    if batch != [] {
      DeliverExtends(w, after, batch, w');
    } else {
      assert w.ses.pushed + batch == w.ses.pushed;
    }
    forall u | u in w'.ses.ticks
      ensures TickOk(w', w'.ses.ticks[u])
    {
      MorePushed(w, w', w.ses.ticks[u]);
    }
  }

  lemma SessionStepKeepsInv(w: World, e: SessionEvent)
    requires Inv(w)
    ensures Inv(Step(w, Client(e)))
  {
    if e.Deliver? && e.tick in w.ses.ticks && w.ses.ticks[e.tick].Fetched? {
      DeliverKeepsInv(w, e.tick);
    } else {
      var w' := Step(w, Client(e));
      if e.Read? && e.tick in w.ses.ticks && w.ses.ticks[e.tick].Asked? {
        ReadIsSolid(w.db, w.ses.companion, w.ses.ticks[e.tick].after, w.ses.limit);
      }
      forall t | t in w'.ses.ticks
        ensures TickOk(w', w'.ses.ticks[t])
      {
        if t in w.ses.ticks {
          MorePushed(w, w', w.ses.ticks[t]);
        }
      }
    }
  }

  lemma StepKeepsInv(w: World, e: Move)
    requires Inv(w) && (e.Server? ==> InsertsInOrder(w.db, w.ses.companion, e.db))
    ensures Inv(Step(w, e))
    ensures Step(w, e).ses.companion == w.ses.companion && Step(w, e).ses.start == w.ses.start
  {
    match e
    case Server(d) => DbStepKeepsInv(w, d);
    case Client(s) => SessionStepKeepsInv(w, s);
  }

  lemma {:induction false} RunKeepsInv(w: World, es: seq<Move>)
    requires Inv(w) && RunInOrder(w, es)
    ensures Inv(Run(w, es)) && Run(w, es).ses.companion == w.ses.companion && Run(w, es).ses.start == w.ses.start
  {
    if es != [] {
      var before := es[..|es| - 1];
      RunKeepsInv(w, before);
      StepKeepsInv(Run(w, before), es[|es| - 1]);
    }
  }

  /** No event is ever lost. For every interleaving of appends, commits, aborts, foreign
      transactions and overlapping ticks, each committed row between the first cursor and
      the current one has been pushed, with its own payload, and nothing else has. */
  lemma NoEventLost(db: Db, c: string, limit: nat, es: seq<Move>)
    requires Valid(db) && InOrder(db, c)
    requires RunInOrder(World(db, Open(db, c, limit)), es)
    ensures var w := Run(World(db, Open(db, c, limit)), es);
      && (forall s: nat :: Visible(w.db, c, s) && w.ses.start < s <= w.ses.cursor ==> EventAt(w.db, s) in w.ses.pushed)
      && (forall e :: e in w.ses.pushed ==>
            w.ses.start < e.seqNo && Visible(w.db, c, e.seqNo) && e == EventAt(w.db, e.seqNo))
  {
    OpenEstablishesInv(db, c, limit);
    RunKeepsInv(World(db, Open(db, c, limit)), es);
  }

  /** Single-statement appends are in order whatever the interleaving, so the theorem
      above applies to every run of the writers the repository has. */
  lemma {:induction false} AtomicWritersAreInOrder(w: World, es: seq<Move>)
    requires AtomicWriters(es)
    ensures RunInOrder(w, es)
  {
    if es != [] {
      var before := es[..|es| - 1];
      assert forall i :: 0 <= i < |before| ==> before[i] == es[i];
      AtomicWritersAreInOrder(w, before);
    }
  }

  /** A late insert that commits at once, before any read, is lost exactly when the cursor has
      passed its seq already. When a read comes in between, a seq ahead of the cursor is no
      safety: `LostRows` says what is. */
  lemma LateInsertIsLostIffBehindCursor(w: World, s: nat, payload: string)
    requires Inv(w) && s in w.db.drawn
    ensures var w' := Step(Step(w, Server(Insert(s, w.ses.companion, payload))), Server(Commit(w.db.nextXid)));
      PushedUpTo(w', w'.ses.cursor) <==> !(w.ses.start < s <= w.ses.cursor)
  {
    var w1 := Step(w, Server(Insert(s, w.ses.companion, payload)));
    var w' := Step(w1, Server(Commit(w.db.nextXid)));
    assert Visible(w'.db, w.ses.companion, s);
    if w.ses.start < s <= w.ses.cursor {
      assert EventAt(w'.db, s) !in w.ses.pushed;
    } else {
      forall t: nat | Visible(w'.db, w.ses.companion, t) && w.ses.start < t <= w.ses.cursor
        ensures EventAt(w'.db, t) in w.ses.pushed
      {
        assert t != s && Visible(w.db, w.ses.companion, t);
      }
    }
  }

  function AnEmptyLog(): Db {
    Db(1, 1, {}, map[], {}, {})
  }

  /** Writer A draws seq 1; writer B appends seq 2 and commits; one tick runs; then A
      gets its transaction id, inserts and commits. */
  function SplitRun(): seq<Move> {
    [Server(Draw), Server(Append("c", "second")), Server(Commit(1))]
    + [Client(Fire), Client(Renewed(0, Held)), Client(Read(0)), Client(Deliver(0))]
    + [Server(Insert(1, "c", "first")), Server(Commit(2))]
  }

  lemma RunSnoc(w: World, es: seq<Move>, e: Move)
    ensures Run(w, es + [e]) == Step(Run(w, es), e)
  {
    assert (es + [e])[..|es|] == es;
  }

  lemma {:induction false} RunConcat(w: World, a: seq<Move>, b: seq<Move>)
    ensures Run(w, a + b) == Run(Run(w, a), b)
  {
    if b == [] {
      assert a + b == a;
    } else {
      var front, last := b[..|b| - 1], b[|b| - 1];
      RunConcat(w, a, front);
      RunSnoc(w, a + front, last);
      assert a + b == (a + front) + [last];
    }
  }

  lemma RunOfTwo(w: World, e: Move, f: Move)
    ensures Run(w, [e, f]) == Step(Step(w, e), f)
  {
    RunSnoc(w, [], e);
    RunSnoc(w, [e], f);
    assert [e, f] == [e] + [f] && [] + [e] == [e];
  }

  lemma FirstHalfOfSplitRun(w: World)
    requires w == World(AnEmptyLog(), Open(AnEmptyLog(), "c", 200))
    ensures Run(w, [Server(Draw), Server(Append("c", "second")), Server(Commit(1))])
         == World(Db(3, 2, {1}, map[2 := Row(1, "c", "second")], {}, {1}), w.ses)
  {
    RunOfTwo(w, Server(Draw), Server(Append("c", "second")));
    RunSnoc(w, [Server(Draw), Server(Append("c", "second"))], Server(Commit(1)));
    assert [Server(Draw), Server(Append("c", "second"))] + [Server(Commit(1))]
        == [Server(Draw), Server(Append("c", "second")), Server(Commit(1))];
  }

  lemma TickInSplitRun(w: World)
    requires w.db == Db(3, 2, {1}, map[2 := Row(1, "c", "second")], {}, {1})
    requires w.ses == Session("c", 200, 0, 0, map[], 0, true, false, [])
    ensures var w' := Run(w, [Client(Fire), Client(Renewed(0, Held)), Client(Read(0)), Client(Deliver(0))]);
      w'.db == w.db && w'.ses.cursor == 2 && w'.ses.start == 0 && w'.ses.companion == "c"
      && w'.ses.pushed == [LoggedEvent(2, "second")]
  {
    assert ReadSince(w.db, "c", 0, 200) == [LoggedEvent(2, "second")] by {
      assert Scan(w.db, "c", 3, 3) == [];
      assert Scan(w.db, "c", 2, 3) == [LoggedEvent(2, "second")];
      assert Scan(w.db, "c", 1, 3) == Scan(w.db, "c", 2, 3);
    }
    var w2 := Step(Step(w, Client(Fire)), Client(Renewed(0, Held)));
    assert w2.ses.ticks[0] == Asked(0);
    RunOfTwo(w, Client(Fire), Client(Renewed(0, Held)));
    RunOfTwo(w2, Client(Read(0)), Client(Deliver(0)));
    RunConcat(w, [Client(Fire), Client(Renewed(0, Held))], [Client(Read(0)), Client(Deliver(0))]);
    assert [Client(Fire), Client(Renewed(0, Held))] + [Client(Read(0)), Client(Deliver(0))]
        == [Client(Fire), Client(Renewed(0, Held)), Client(Read(0)), Client(Deliver(0))];
  }

  /** The assumption is needed: with seq and xid drawn separately, the horizon read skips
      a row for good, with no overlapping ticks and the batch limit of the code. */
  lemma SplitAssignmentLosesARow()
    ensures var w := Run(World(AnEmptyLog(), Open(AnEmptyLog(), "c", 200)), SplitRun());
      && Visible(w.db, "c", 1) && w.ses.start < 1 <= w.ses.cursor
      && EventAt(w.db, 1) !in w.ses.pushed
  {
    var w0 := World(AnEmptyLog(), Open(AnEmptyLog(), "c", 200));
    var a := [Server(Draw), Server(Append("c", "second")), Server(Commit(1))];
    var b := [Client(Fire), Client(Renewed(0, Held)), Client(Read(0)), Client(Deliver(0))];
    var c := [Server(Insert(1, "c", "first")), Server(Commit(2))];
    FirstHalfOfSplitRun(w0);
    TickInSplitRun(Run(w0, a));
    RunConcat(w0, a, b);
    RunConcat(w0, a + b, c);
    RunOfTwo(Run(w0, a + b), c[0], c[1]);
  }
}
