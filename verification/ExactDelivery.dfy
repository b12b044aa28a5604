/** Exactly when live delivery pushes each event once and in order, how the first cursor meets
    the client's own snapshot, and what overlapping ticks cost. */
module ExactDelivery {
  import opened EventLog
  import opened Delivery

  /** A tick is fired only when the previous one has finished. */
  ghost predicate NonOverlapping(w: World, es: seq<Move>) {
    es == [] ||
    (var before := es[..|es| - 1];
     NonOverlapping(w, before) &&
     (es[|es| - 1] == Client(Fire) ==> Run(w, before).ses.ticks == map[]))
  }

  ghost predicate TickExact(w: World, tick: Tick) {
    match tick
    case Renewing => true
    case Asked(a) => a <= w.ses.cursor
    case Fetched(a, b) =>
      && a <= w.ses.cursor && a <= CursorAfter(a, b)
      && b == Committed(w.db, w.ses.companion, a + 1, CursorAfter(a, b) + 1)
  }

  /** What has been pushed is what is committed up to the cursor, each row once and in order. */
  ghost predicate Exact(w: World) {
    && (forall i :: i in w.ses.ticks ==> TickExact(w, w.ses.ticks[i]))
    && w.ses.pushed == Committed(w.db, w.ses.companion, w.ses.start + 1, w.ses.cursor + 1)
    && w.ses.cursor == CursorAfter(w.ses.start, w.ses.pushed)
  }

  /** A move that delivers rows delivers them for a tick that asked with the cursor it finds. */
  predicate AsksWithItsCursor(ses: Session, e: Move) {
    e.Client? && e.ses.Deliver? && e.ses.tick in ses.ticks && ses.ticks[e.ses.tick].Fetched?
    && ses.ticks[e.ses.tick].batch != [] ==>
      ses.ticks[e.ses.tick].after == ses.cursor
  }

  ghost predicate AllAskWithTheirCursor(w: World, es: seq<Move>) {
    es == [] ||
    (var before := es[..|es| - 1];
     AllAskWithTheirCursor(w, before) && AsksWithItsCursor(Run(w, before).ses, es[|es| - 1]))
  }

  /** The committed rows up to a value behind the horizon are the same after any
      database step. */
  lemma CommittedIsFrozen(db: Db, c: string, e: DbEvent, lo: nat, v: nat)
    requires Valid(db) && InsertsInOrder(db, c, e) && Behind(db, c, v)
    ensures Committed(DbStep(db, e), c, lo, v + 1) == Committed(db, c, lo, v + 1)
  {
    BehindIsStable(db, c, e, v);
    CommittedDependsOnRange(DbStep(db, e), db, c, lo, v + 1);
  }

  lemma DbStepKeepsTick(w: World, e: DbEvent, tick: Tick)
    requires Valid(w.db) && InsertsInOrder(w.db, w.ses.companion, e) && TickOk(w, tick) && TickExact(w, tick)
    ensures TickExact(Step(w, Server(e)), tick)
  {
    if tick.Fetched? {
      CommittedIsFrozen(w.db, w.ses.companion, e, tick.after + 1, CursorAfter(tick.after, tick.batch));
    }
  }

  lemma PushedStaysExact(db: Db, ses: Session, e: DbEvent)
    requires Valid(db) && InsertsInOrder(db, ses.companion, e) && Behind(db, ses.companion, ses.cursor)
    requires ses.pushed == Committed(db, ses.companion, ses.start + 1, ses.cursor + 1)
    ensures ses.pushed == Committed(DbStep(db, e), ses.companion, ses.start + 1, ses.cursor + 1)
  {
    CommittedIsFrozen(db, ses.companion, e, ses.start + 1, ses.cursor);
  }

  lemma DbStepKeepsExact(w: World, e: DbEvent)
    requires Inv(w) && Exact(w) && InsertsInOrder(w.db, w.ses.companion, e)
    ensures Exact(Step(w, Server(e)))
  {
    var w' := Step(w, Server(e));
    PushedStaysExact(w.db, w.ses, e);
    forall i | i in w.ses.ticks
      ensures TickExact(w', w.ses.ticks[i])
    {
      assert TickOk(w, w.ses.ticks[i]) && TickExact(w, w.ses.ticks[i]);
      DbStepKeepsTick(w, e, w.ses.ticks[i]);
    }
  }

  lemma ReadIsCommitted(db: Db, c: string, after: nat, limit: nat)
    requires Valid(db) && InOrder(db, c)
    ensures var b := ReadSince(db, c, after, limit);
      b == Committed(db, c, after + 1, CursorAfter(after, b) + 1) && after <= CursorAfter(after, b)
  {
    var b := ReadSince(db, c, after, limit);
    ReadIsSolid(db, c, after, limit);
    if b != [] {
      ReadIsScan(db, c, after, limit);
      assert b[|b| - 1] in b;
      SettledScanIsCommitted(db, c, after + 1, CursorAfter(after, b) + 1);
    }
  }

  lemma DeliverKeepsExact(w: World, t: nat)
    requires Exact(w) && t in w.ses.ticks && w.ses.ticks[t].Fetched? && w.ses.start <= w.ses.cursor
    requires AsksWithItsCursor(w.ses, Client(Deliver(t)))
    ensures Exact(Step(w, Client(Deliver(t))))
  {
    var batch := w.ses.ticks[t].batch;
    var end := CursorAfter(w.ses.cursor, batch);
    var w' := Step(w, Client(Deliver(t)));
    assert TickExact(w, w.ses.ticks[t]);
    if batch != [] {
      CommittedSplits(w.db, w.ses.companion, w.ses.start + 1, w.ses.cursor + 1, end + 1);
    } else {
      assert w'.ses.pushed == w.ses.pushed;
    }
    forall i | i in w'.ses.ticks
      ensures TickExact(w', w'.ses.ticks[i])
    {
      assert TickExact(w, w.ses.ticks[i]);
    }
  }

  lemma ReadKeepsExact(w: World, t: nat)
    requires Valid(w.db) && InOrder(w.db, w.ses.companion)
    requires Exact(w) && t in w.ses.ticks && w.ses.ticks[t].Asked?
    ensures Exact(Step(w, Client(Read(t))))
  {
    assert TickExact(w, w.ses.ticks[t]);
    var after := w.ses.ticks[t].after;
    ReadIsCommitted(w.db, w.ses.companion, after, w.ses.limit);
    FetchedKeepsExact(w, t, after, ReadSince(w.db, w.ses.companion, after, w.ses.limit));
  }

  lemma FetchedKeepsExact(w: World, t: nat, after: nat, batch: seq<LoggedEvent>)
    requires Exact(w) && t in w.ses.ticks
    requires TickExact(w, Fetched(after, batch))
    ensures Exact(w.(ses := w.ses.(ticks := w.ses.ticks[t := Fetched(after, batch)])))
  {
  }

  /** Steps that push nothing. */
  lemma QuietStepKeepsExact(w: World, e: SessionEvent)
    requires Exact(w) && !e.Read? && !e.Deliver?
    ensures Exact(Step(w, Client(e)))
  {
    var w' := Step(w, Client(e));
    assert w'.db == w.db && w'.ses.pushed == w.ses.pushed && w'.ses.cursor == w.ses.cursor;
    forall i | i in w'.ses.ticks
      ensures TickExact(w', w'.ses.ticks[i])
    {
      assert i in w.ses.ticks ==> TickExact(w, w.ses.ticks[i]);
    }
  }

  lemma SessionStepKeepsExact(w: World, e: SessionEvent)
    requires Valid(w.db) && InOrder(w.db, w.ses.companion) && w.ses.start <= w.ses.cursor
    requires Exact(w) && AsksWithItsCursor(w.ses, Client(e))
    ensures Exact(Step(w, Client(e)))
  {
    if e.Read? {
      if e.tick in w.ses.ticks && w.ses.ticks[e.tick].Asked? {
        ReadKeepsExact(w, e.tick);
      }
    } else if e.Deliver? {
      if e.tick in w.ses.ticks && w.ses.ticks[e.tick].Fetched? {
        DeliverKeepsExact(w, e.tick);
      }
    } else {
      QuietStepKeepsExact(w, e);
    }
  }

  lemma StepKeepsExact(w: World, e: Move)
    requires Inv(w) && Exact(w) && AsksWithItsCursor(w.ses, e)
    requires e.Server? ==> InsertsInOrder(w.db, w.ses.companion, e.db)
    ensures Exact(Step(w, e))
  {
    match e
    case Server(d) => DbStepKeepsExact(w, d);
    case Client(s) => SessionStepKeepsExact(w, s);
  }

  lemma ExactMeansAscending(w: World)
    requires Exact(w)
    ensures Ascending(w.ses.pushed)
    ensures forall e :: e in w.ses.pushed ==> e.seqNo <= w.ses.cursor
  {
    CommittedIsExact(w.db, w.ses.companion, w.ses.start + 1, w.ses.cursor + 1);
  }

  /** A tick that asked with an older cursor brings back a row already pushed. */
  lemma StaleBatchStartsBehind(w: World, after: nat, batch: seq<LoggedEvent>)
    requires Exact(w) && w.ses.start <= after < w.ses.cursor && batch != []
    requires batch == Committed(w.db, w.ses.companion, after + 1, CursorAfter(after, batch) + 1)
    ensures batch[0].seqNo <= w.ses.cursor && w.ses.pushed != []
    ensures w.ses.pushed[|w.ses.pushed| - 1].seqNo == w.ses.cursor
  {
    var end := batch[|batch| - 1].seqNo;
    var newest := w.ses.pushed[|w.ses.pushed| - 1];
    assert newest in w.ses.pushed;
    CommittedIsExact(w.db, w.ses.companion, w.ses.start + 1, w.ses.cursor + 1);
    CommittedIsExact(w.db, w.ses.companion, after + 1, end + 1);
    FirstIsLeast(batch, if w.ses.cursor <= end then newest else batch[|batch| - 1]);
  }

  lemma FirstIsLeast(batch: seq<LoggedEvent>, e: LoggedEvent)
    requires Ascending(batch) && e in batch
    ensures batch[0].seqNo <= e.seqNo
  {
    var i :| 0 <= i < |batch| && batch[i] == e;
    assert i > 0 ==> batch[0].seqNo < batch[i].seqNo;
  }

  lemma StaleBatchRepeats(w: World, after: nat, batch: seq<LoggedEvent>)
    requires Exact(w) && w.ses.start <= after < w.ses.cursor && batch != []
    requires batch == Committed(w.db, w.ses.companion, after + 1, CursorAfter(after, batch) + 1)
    ensures !Ascending(w.ses.pushed + batch) && batch[0].seqNo <= w.ses.cursor
  {
    StaleBatchStartsBehind(w, after, batch);
    var n, all := |w.ses.pushed|, w.ses.pushed + batch;
    assert all[n - 1] == w.ses.pushed[n - 1] && all[n] == batch[0];
  }

  /** Exactly when delivering a batch keeps what is pushed in order and free of repeats: when
      its tick asked with the cursor it finds, which is when its first row lies ahead of it. */
  lemma DeliverStaysExactIffFresh(w: World, t: nat)
    requires Inv(w) && Exact(w) && t in w.ses.ticks && w.ses.ticks[t].Fetched? && w.ses.ticks[t].batch != []
    ensures Ascending(Step(w, Client(Deliver(t))).ses.pushed) <==> w.ses.ticks[t].after == w.ses.cursor
    ensures w.ses.ticks[t].batch[0].seqNo > w.ses.cursor <==> w.ses.ticks[t].after == w.ses.cursor
  {
    var after, batch := w.ses.ticks[t].after, w.ses.ticks[t].batch;
    assert TickOk(w, w.ses.ticks[t]) && TickExact(w, w.ses.ticks[t]);
    if after == w.ses.cursor {
      assert batch[0] in batch;
      DeliverKeepsExact(w, t);
      ExactMeansAscending(Step(w, Client(Deliver(t))));
    } else {
      StaleBatchRepeats(w, after, batch);
    }
  }

  lemma PushedOnlyGrows(w: World, e: Move)
    ensures w.ses.pushed <= Step(w, e).ses.pushed
  {
  }

  lemma StepStaysExactIff(w: World, e: Move)
    requires Inv(w) && Exact(w) && (e.Server? ==> InsertsInOrder(w.db, w.ses.companion, e.db))
    ensures Ascending(Step(w, e).ses.pushed) <==> AsksWithItsCursor(w.ses, e)
    ensures AsksWithItsCursor(w.ses, e) ==> Exact(Step(w, e))
  {
    if AsksWithItsCursor(w.ses, e) {
      StepKeepsExact(w, e);
      ExactMeansAscending(Step(w, e));
    } else {
      DeliverStaysExactIffFresh(w, e.ses.tick);
    }
  }

  lemma {:induction false} RunIsExactIff(w: World, es: seq<Move>)
    requires Inv(w) && Exact(w) && RunInOrder(w, es)
    ensures Ascending(Run(w, es).ses.pushed) <==> AllAskWithTheirCursor(w, es)
    ensures AllAskWithTheirCursor(w, es) ==> Exact(Run(w, es))
  {
    if es == [] {
      ExactMeansAscending(w);
    } else {
      var before, last := es[..|es| - 1], es[|es| - 1];
      RunIsExactIff(w, before);
      RunKeepsInv(w, before);
      PushedOnlyGrows(Run(w, before), last);
      if Exact(Run(w, before)) {
        StepStaysExactIff(Run(w, before), last);
      }
    }
  }

  /** Exactly when a run delivers each event once and in order: when every batch it pushes was
      asked for with the cursor it finds. Then what was pushed is the committed rows between
      the first cursor and the current one; otherwise some event is repeated or out of order. */
  lemma DeliveryIsExactIff(db: Db, c: string, limit: nat, es: seq<Move>)
    requires Valid(db) && InOrder(db, c)
    requires RunInOrder(World(db, Open(db, c, limit)), es)
    ensures var w0 := World(db, Open(db, c, limit)); var w := Run(w0, es);
      && (Ascending(w.ses.pushed) <==> AllAskWithTheirCursor(w0, es))
      && (w.ses.pushed == Committed(w.db, c, w.ses.start + 1, w.ses.cursor + 1) <==> AllAskWithTheirCursor(w0, es))
  {
    var w0 := World(db, Open(db, c, limit));
    OpenEstablishesInv(db, c, limit);
    OpenIsExact(db, c, limit);
    RunIsExactIff(w0, es);
    RunKeepsCompanion(w0, es);
    CommittedIffAscending(Run(w0, es), c, AllAskWithTheirCursor(w0, es));
  }

  lemma CommittedIffAscending(w: World, c: string, exact: bool)
    requires w.ses.companion == c && (exact ==> Exact(w)) && (Ascending(w.ses.pushed) <==> exact)
    ensures w.ses.pushed == Committed(w.db, c, w.ses.start + 1, w.ses.cursor + 1) <==> exact
  {
    CommittedIsExact(w.db, c, w.ses.start + 1, w.ses.cursor + 1);
  }

  lemma RunKeepsCompanion(w: World, es: seq<Move>)
    requires Inv(w) && RunInOrder(w, es)
    ensures Run(w, es).ses.companion == w.ses.companion
  {
    RunKeepsInv(w, es);
  }

  /** One tick at most, and it asked, if it did, with the current cursor. */
  ghost predicate Alone(ses: Session) {
    && (forall i, j :: i in ses.ticks && j in ses.ticks ==> i == j)
    && (forall i :: i in ses.ticks && !ses.ticks[i].Renewing? ==> ses.ticks[i].after == ses.cursor)
  }

  lemma StepKeepsAlone(w: World, e: Move)
    requires Alone(w.ses) && (e == Client(Fire) ==> w.ses.ticks == map[])
    ensures Alone(Step(w, e).ses) && AsksWithItsCursor(w.ses, e)
  {
  }

  lemma {:induction false} NonOverlappingAsksInTime(w: World, es: seq<Move>)
    requires Alone(w.ses) && NonOverlapping(w, es)
    ensures Alone(Run(w, es).ses) && AllAskWithTheirCursor(w, es)
  {
    if es != [] {
      NonOverlappingAsksInTime(w, es[..|es| - 1]);
      StepKeepsAlone(Run(w, es[..|es| - 1]), es[|es| - 1]);
    }
  }

  /** Without overlap, what has been pushed is the committed rows between the first cursor
      and the current one: each once, in ascending seq order, whatever the batch limit. */
  lemma NonOverlappingDeliveryIsExact(db: Db, c: string, limit: nat, es: seq<Move>)
    requires Valid(db) && InOrder(db, c)
    requires RunInOrder(World(db, Open(db, c, limit)), es)
    requires NonOverlapping(World(db, Open(db, c, limit)), es)
    ensures var w := Run(World(db, Open(db, c, limit)), es);
      && w.ses.pushed == Committed(w.db, c, w.ses.start + 1, w.ses.cursor + 1)
      && Ascending(w.ses.pushed)
  {
    DeliveryIsExactIff(db, c, limit, es);
    NonOverlappingAsksInTime(World(db, Open(db, c, limit)), es);
  }

  lemma OpenIsExact(db: Db, c: string, limit: nat)
    ensures Exact(World(db, Open(db, c, limit)))
  {
  }

  /** The snapshot the client takes and the live stream leave no gap between them: a row
      that ever commits was either committed when the cursor was set, so every later
      snapshot sees it, or lies ahead of that cursor. */
  lemma {:induction false} SnapshotOrStream(db: Db, c: string, limit: nat, es: seq<Move>, s: nat)
    requires Valid(db) && InOrder(db, c)
    requires RunInOrder(World(db, Open(db, c, limit)), es)
    ensures var w := Run(World(db, Open(db, c, limit)), es);
      Visible(w.db, c, s) ==> Visible(db, c, s) || LatestSettledSeq(db, c) < s
  {
    var w0 := World(db, Open(db, c, limit));
    OpenEstablishesInv(db, c, limit);
    if es != [] {
      var before := es[..|es| - 1];
      SnapshotOrStream(db, c, limit, before, s);
      RunKeepsInv(w0, before);
      var w := Run(w0, before);
      if es[|es| - 1].Server? {
        BehindIsStable(w.db, c, es[|es| - 1].db, w.ses.start);
      }
    }
  }

  /** A committed row is deliverable exactly when no transaction as old is still running:
      the horizon delays a row, it never withholds one. */
  lemma DeliverableIffOlderWritersDone(db: Db, c: string, s: nat)
    requires Valid(db) && Visible(db, c, s)
    ensures Deliverable(db, c, s) <==> forall x :: x in db.running ==> db.rows[s].xid < x
  {
    if forall x :: x in db.running ==> db.rows[s].xid < x {
      assert Xmin(db) == db.nextXid || Xmin(db) in db.running;
    }
  }

  /** What one whole tick does when it runs alone and finds the lease held. */
  function Cycle(w: World): World {
    var batch := ReadSince(w.db, w.ses.companion, w.ses.cursor, w.ses.limit);
    w.(ses := w.ses.(nextTick := w.ses.nextTick + 1, pushed := w.ses.pushed + batch,
                     cursor := CursorAfter(w.ses.cursor, batch)))
  }

  function Cycles(w: World, n: nat): World
    decreases n
  {
    if n == 0 then w else Cycles(Cycle(w), n - 1)
  }

  lemma CycleIsFourSteps(w: World)
    requires w.ses.live && w.ses.ticks == map[]
    ensures var t := w.ses.nextTick;
      Cycle(w) == Step(Step(Step(Step(w, Client(Fire)), Client(Renewed(t, Held))), Client(Read(t))), Client(Deliver(t)))
  {
    var t := w.ses.nextTick;
    var w2 := Step(Step(w, Client(Fire)), Client(Renewed(t, Held)));
    assert w2.ses.ticks == map[t := Asked(w.ses.cursor)];
    assert Step(w2, Client(Read(t))).ses.ticks - {t} == map[];
  }

  lemma LastIsAhead(db: Db, c: string, at: nat, batch: seq<LoggedEvent>, all: seq<LoggedEvent>)
    requires all == Scan(db, c, at + 1, db.nextSeq) && batch <= all && batch != []
    ensures at < CursorAfter(at, batch) < db.nextSeq
  {
    ScanIsExact(db, c, at + 1, db.nextSeq);
    assert all[|batch| - 1] in all;
  }

  /** A batch is a proper head of what lies ahead; the rest lies ahead of the new cursor. */
  lemma BatchThenRest(db: Db, c: string, at: nat, limit: nat)
    requires 1 <= limit
    ensures var all, batch := Scan(db, c, at + 1, db.nextSeq), ReadSince(db, c, at, limit);
      && all == batch + Scan(db, c, CursorAfter(at, batch) + 1, db.nextSeq)
      && (all != [] ==> batch != [])
  {
    var all, batch := Scan(db, c, at + 1, db.nextSeq), ReadSince(db, c, at, limit);
    if batch != [] {
      ReadIsScan(db, c, at, limit);
      LastIsAhead(db, c, at, batch, all);
      ScanSplits(db, c, at + 1, CursorAfter(at, batch) + 1, db.nextSeq);
    }
  }

  /** Step-bounded progress: with a positive batch limit, as many ticks as there are
      deliverable rows ahead push all of them. */
  lemma {:induction false} CyclesDrainTheLog(w: World, n: nat)
    requires w.ses.live && w.ses.ticks == map[] && 1 <= w.ses.limit
    requires |Scan(w.db, w.ses.companion, w.ses.cursor + 1, w.db.nextSeq)| <= n
    ensures Cycles(w, n).ses.pushed
         == w.ses.pushed + Scan(w.db, w.ses.companion, w.ses.cursor + 1, w.db.nextSeq)
    decreases n
  {
    if n > 0 {
      var w' := Cycle(w);
      BatchThenRest(w.db, w.ses.companion, w.ses.cursor, w.ses.limit);
      CyclesDrainTheLog(w', n - 1);
    }
  }

  // A run in which overlap repeats an event and moves the cursor back: tick 0 reads one row, a
  // second row commits, tick 1 reads both and delivers first. `NoEventLost` covers such runs.

  function TwoTicksAsk(): seq<Move> {
    [Server(Append("c", "x")), Server(Commit(1)),
     Client(Fire), Client(Fire), Client(Renewed(0, Held)), Client(Renewed(1, Held))]
  }

  function BothReadAndDeliver(): seq<Move> {
    [Client(Read(0)), Server(Append("c", "y")), Server(Commit(2)),
     Client(Read(1)), Client(Deliver(1)), Client(Deliver(0))]
  }

  lemma SixSteps(w: World, a: Move, b: Move, c: Move, d: Move, e: Move, f: Move)
    ensures Run(w, [a, b, c, d, e, f]) == Step(Step(Step(Step(Step(Step(w, a), b), c), d), e), f)
  {
    RunOfTwo(w, a, b);
    RunOfTwo(Run(w, [a, b]), c, d);
    RunOfTwo(Run(w, [a, b, c, d]), e, f);
    RunConcat(w, [a, b], [c, d]);
    RunConcat(w, [a, b, c, d], [e, f]);
    assert [a, b] + [c, d] == [a, b, c, d] && [a, b, c, d] + [e, f] == [a, b, c, d, e, f];
  }

  lemma FirstHalfOfOverlap(w: World)
    requires w == World(AnEmptyLog(), Open(AnEmptyLog(), "c", 200))
    ensures Run(w, TwoTicksAsk())
         == World(Db(2, 2, {}, map[1 := Row(1, "c", "x")], {}, {1}),
                  Session("c", 200, 0, 0, map[0 := Asked(0), 1 := Asked(0)], 2, true, false, []))
  {
    var w2 := Step(Step(w, Server(Append("c", "x"))), Server(Commit(1)));
    assert w2.db == Db(2, 2, {}, map[1 := Row(1, "c", "x")], {}, {1});
    var w4 := Step(Step(w2, Client(Fire)), Client(Fire));
    assert w4.ses.ticks == map[0 := Renewing, 1 := Renewing];
    SixSteps(w, Server(Append("c", "x")), Server(Commit(1)), Client(Fire), Client(Fire),
             Client(Renewed(0, Held)), Client(Renewed(1, Held)));
  }

  lemma ReadsOfOverlap()
    ensures ReadSince(Db(2, 2, {}, map[1 := Row(1, "c", "x")], {}, {1}), "c", 0, 200) == [LoggedEvent(1, "x")]
    ensures ReadSince(Db(3, 3, {}, map[1 := Row(1, "c", "x"), 2 := Row(2, "c", "y")], {}, {1, 2}), "c", 0, 200)
         == [LoggedEvent(1, "x"), LoggedEvent(2, "y")]
  {
    var db := Db(2, 2, {}, map[1 := Row(1, "c", "x")], {}, {1});
    var db' := Db(3, 3, {}, map[1 := Row(1, "c", "x"), 2 := Row(2, "c", "y")], {}, {1, 2});
    assert Xmin(db) == 2 && Xmin(db') == 3;
    assert Scan(db, "c", 2, 2) == [] && Scan(db, "c", 1, 2) == [LoggedEvent(1, "x")];
    assert Scan(db', "c", 3, 3) == [];
    assert Scan(db', "c", 2, 3) == [LoggedEvent(2, "y")];
    assert Scan(db', "c", 1, 3) == [LoggedEvent(1, "x")] + [LoggedEvent(2, "y")];
  }

  lemma SecondHalfOfOverlap(w: World)
    requires w == World(Db(2, 2, {}, map[1 := Row(1, "c", "x")], {}, {1}),
                        Session("c", 200, 0, 0, map[0 := Asked(0), 1 := Asked(0)], 2, true, false, []))
    ensures var w' := Run(w, BothReadAndDeliver());
      w'.ses.pushed == [LoggedEvent(1, "x"), LoggedEvent(2, "y"), LoggedEvent(1, "x")] && w'.ses.cursor == 1
  {
    ReadsOfOverlap();
    var one, two := [LoggedEvent(1, "x")], [LoggedEvent(1, "x"), LoggedEvent(2, "y")];
    var w1 := Step(w, Client(Read(0)));
    assert w1.ses.ticks == map[0 := Fetched(0, one), 1 := Asked(0)];
    var w3 := Step(Step(w1, Server(Append("c", "y"))), Server(Commit(2)));
    assert w3.db == Db(3, 3, {}, map[1 := Row(1, "c", "x"), 2 := Row(2, "c", "y")], {}, {1, 2});
    var w4 := Step(w3, Client(Read(1)));
    assert w4.ses.ticks == map[0 := Fetched(0, one), 1 := Fetched(0, two)];
    SixSteps(w, Client(Read(0)), Server(Append("c", "y")), Server(Commit(2)), Client(Read(1)),
             Client(Deliver(1)), Client(Deliver(0)));
  }

  /** From a freshly opened connection on an empty log. */
  lemma OverlapRepeatsAndRewinds()
    ensures var w := Run(World(AnEmptyLog(), Open(AnEmptyLog(), "c", 200)), TwoTicksAsk() + BothReadAndDeliver());
      w.ses.pushed == [LoggedEvent(1, "x"), LoggedEvent(2, "y"), LoggedEvent(1, "x")] && w.ses.cursor == 1
  {
    var w := World(AnEmptyLog(), Open(AnEmptyLog(), "c", 200));
    FirstHalfOfOverlap(w);
    SecondHalfOfOverlap(Run(w, TwoTicksAsk()));
    RunConcat(w, TwoTicksAsk(), BothReadAndDeliver());
  }
}
