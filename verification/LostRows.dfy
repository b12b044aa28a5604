/** Exactly which rows live delivery loses, whatever its writers do: no order of seqs and
    transaction ids is assumed here. What decides is the moment of a read, not the cursor. */
module LostRows {
  import opened EventLog
  import opened Delivery

  function DbRun(db: Db, ds: seq<DbEvent>): Db {
    if ds == [] then db else DbStep(DbRun(db, ds[..|ds| - 1]), ds[|ds| - 1])
  }

  /** A seq whose fate is known: nobody holds it undrawn, and no row of the companion there is
      still running or committed above the horizon. */
  predicate Settled(db: Db, c: string, s: nat) {
    && s !in db.drawn
    && (Of(db, c, s) ==>
          && db.rows[s].xid !in db.running
          && (db.rows[s].xid in db.committed ==> db.rows[s].xid < Xmin(db)))
  }

  /** What a read can check before it moves a cursor from `after` to `last`. */
  ghost predicate SafeRead(db: Db, c: string, after: nat, last: nat) {
    forall s: nat :: after < s <= last ==> Settled(db, c, s)
  }

  /** A settled seq stays settled, and what is visible there never changes again. */
  lemma SettledStays(db: Db, c: string, e: DbEvent, s: nat)
    requires Valid(db) && s < db.nextSeq && Settled(db, c, s)
    ensures Settled(DbStep(db, e), c, s) && s < DbStep(db, e).nextSeq
    ensures Visible(DbStep(db, e), c, s) <==> Visible(db, c, s)
    ensures Visible(db, c, s) ==> DbStep(db, e).rows[s] == db.rows[s]
  {
    HorizonNeverMovesBack(db, e);
  }

  lemma {:induction false} SettledForGood(db: Db, c: string, ds: seq<DbEvent>, s: nat)
    requires Valid(db) && s < db.nextSeq && Settled(db, c, s)
    ensures Valid(DbRun(db, ds)) && Settled(DbRun(db, ds), c, s) && s < DbRun(db, ds).nextSeq
    ensures Visible(DbRun(db, ds), c, s) <==> Visible(db, c, s)
    ensures Visible(db, c, s) ==> DbRun(db, ds).rows[s] == db.rows[s]
  {
    if ds != [] {
      SettledForGood(db, c, ds[..|ds| - 1], s);
      StepKeepsValid(DbRun(db, ds[..|ds| - 1]), ds[|ds| - 1]);
      SettledStays(DbRun(db, ds[..|ds| - 1]), c, ds[|ds| - 1], s);
    }
  }

  /** The steps that show a row at an unsettled seq: its writer inserts, if it has not yet, and
      commits. */
  function Reveal(db: Db, c: string, s: nat): seq<DbEvent> {
    if s in db.drawn then [Insert(s, c, ""), Commit(db.nextXid)]
    else if Of(db, c, s) && db.rows[s].xid in db.running then [Commit(db.rows[s].xid)]
    else []
  }

  lemma UnsettledIsRevealed(db: Db, c: string, s: nat)
    requires Valid(db) && !Settled(db, c, s)
    ensures Visible(DbRun(db, Reveal(db, c, s)), c, s) && !Deliverable(db, c, s)
  {
    var ds := Reveal(db, c, s);
    if s in db.drawn {
      assert ds[..1] == [Insert(s, c, "")] && ds[..1][..0] == [];
      assert DbRun(db, ds[..1]) == DbStep(db, ds[0]);
    } else if ds != [] {
      assert ds[..0] == [];
    }
  }

  /** A batch holds exactly the rows of its range that were deliverable at its read. */
  lemma BatchIsExact(db: Db, c: string, after: nat, limit: nat, last: nat)
    requires ReadSince(db, c, after, limit) != [] && last == CursorAfter(after, ReadSince(db, c, after, limit))
    ensures after < last && Deliverable(db, c, last)
    ensures forall e :: e in ReadSince(db, c, after, limit) <==>
      after < e.seqNo <= last && Deliverable(db, c, e.seqNo) && e == EventAt(db, e.seqNo)
  {
    var batch := ReadSince(db, c, after, limit);
    ReadIsScan(db, c, after, limit);
    ScanIsExact(db, c, after + 1, last + 1);
    assert batch[|batch| - 1] in batch;
  }

  /** Exactly when a batch is complete for good: when every seq it passes is settled at the read.
      Otherwise some database steps make a row visible that it has passed and does not hold. */
  lemma ReadIsSafeIff(db: Db, c: string, after: nat, limit: nat, last: nat)
    requires Valid(db)
    requires ReadSince(db, c, after, limit) != [] && last == CursorAfter(after, ReadSince(db, c, after, limit))
    ensures (forall ds, s: nat :: after < s <= last && Visible(DbRun(db, ds), c, s) ==>
               EventAt(DbRun(db, ds), s) in ReadSince(db, c, after, limit))
            <==> SafeRead(db, c, after, last)
  {
    BatchIsExact(db, c, after, limit, last);
    if SafeRead(db, c, after, last) {
      forall ds, s: nat | after < s <= last && Visible(DbRun(db, ds), c, s)
        ensures EventAt(DbRun(db, ds), s) in ReadSince(db, c, after, limit)
      {
        SettledForGood(db, c, ds, s);
      }
    } else {
      var s: nat :| after < s <= last && !Settled(db, c, s);
      UnsettledIsRevealed(db, c, s);
      assert EventAt(DbRun(db, Reveal(db, c, s)), s) !in ReadSince(db, c, after, limit);
    }
  }

  /** A move that pushes a non-empty batch. */
  predicate Delivers(ses: Session, e: Move) {
    && e.Client? && e.ses.Deliver? && e.ses.tick in ses.ticks
    && ses.ticks[e.ses.tick].Fetched? && ses.ticks[e.ses.tick].batch != []
  }

  /** That batch passes a seq: it was asked for below it, and its last row is not. */
  predicate Spans(ses: Session, e: Move, s: nat) {
    && Delivers(ses, e)
    && var tick := ses.ticks[e.ses.tick]; tick.after < s <= CursorAfter(tick.after, tick.batch)
  }

  /** The database each tick's read saw. */
  function NextReads(w: World, seen: map<nat, Db>, e: Move): map<nat, Db> {
    if e.Client? && e.ses.Read? && e.ses.tick in w.ses.ticks && w.ses.ticks[e.ses.tick].Asked?
    then seen[e.ses.tick := w.db] else seen
  }

  function Reads(w: World, es: seq<Move>): map<nat, Db> {
    if es == [] then map[]
    else NextReads(Run(w, es[..|es| - 1]), Reads(w, es[..|es| - 1]), es[|es| - 1])
  }

  /** The move pushes a batch that passes s and whose read found s deliverable. */
  predicate Catches(w: World, seen: map<nat, Db>, e: Move, s: nat) {
    && Spans(w.ses, e, s) && e.ses.tick in seen && Deliverable(seen[e.ses.tick], w.ses.companion, s)
  }

  predicate Caught(w: World, es: seq<Move>, s: nat) {
    es != []
    && var before, last := es[..|es| - 1], es[|es| - 1];
       Caught(w, before, s) || Catches(Run(w, before), Reads(w, before), last, s)
  }

  predicate Spanned(w: World, es: seq<Move>, s: nat) {
    es != []
    && var before, last := es[..|es| - 1], es[|es| - 1];
       Spanned(w, before, s) || Spans(Run(w, before).ses, last, s)
  }

  /** What was deliverable still is, with the same payload. */
  ghost predicate Keeps(d: Db, db: Db, c: string) {
    forall s: nat :: Deliverable(d, c, s) ==> Deliverable(db, c, s) && db.rows[s] == d.rows[s]
  }

  lemma StepKeeps(d: Db, db: Db, c: string, e: DbEvent)
    requires Valid(db) && Keeps(d, db, c)
    ensures Keeps(d, DbStep(db, e), c)
  {
    HorizonNeverMovesBack(db, e);
  }

  ghost predicate TickRemembers(w: World, seen: map<nat, Db>, t: nat, tick: Tick) {
    match tick
    case Renewing => true
    case Asked(a) => w.ses.start <= a
    case Fetched(a, b) =>
      && w.ses.start <= a && t in seen && Keeps(seen[t], w.db, w.ses.companion)
      && b == ReadSince(seen[t], w.ses.companion, a, w.ses.limit)
  }

  ghost predicate Remembers(w: World, seen: map<nat, Db>) {
    && Valid(w.db) && w.ses.start <= w.ses.cursor
    && (forall t :: t in w.ses.ticks ==> t < w.ses.nextTick && TickRemembers(w, seen, t, w.ses.ticks[t]))
    && (forall e :: e in w.ses.pushed ==>
          Deliverable(w.db, w.ses.companion, e.seqNo) && e == EventAt(w.db, e.seqNo))
  }

  /** What a batch in flight holds, in terms of the table as it is now. */
  lemma FetchedIsExact(w: World, seen: map<nat, Db>, t: nat, after: nat, batch: seq<LoggedEvent>, last: nat)
    requires TickRemembers(w, seen, t, Fetched(after, batch)) && batch != [] && last == CursorAfter(after, batch)
    ensures after < last
    ensures forall e :: e in batch ==>
      Deliverable(w.db, w.ses.companion, e.seqNo) && e == EventAt(w.db, e.seqNo)
    ensures forall s: nat :: (exists e :: e in batch && e.seqNo == s) <==>
      after < s <= last && Deliverable(seen[t], w.ses.companion, s)
  {
    BatchIsExact(seen[t], w.ses.companion, after, w.ses.limit, last);
    forall s: nat | after < s <= last && Deliverable(seen[t], w.ses.companion, s)
      ensures exists e :: e in batch && e.seqNo == s
    {
      assert EventAt(seen[t], s) in batch;
    }
  }

  lemma FetchedHas(w: World, seen: map<nat, Db>, t: nat, after: nat, batch: seq<LoggedEvent>, last: nat, s: nat)
    requires TickRemembers(w, seen, t, Fetched(after, batch)) && batch != [] && last == CursorAfter(after, batch)
    ensures (exists e :: e in batch && e.seqNo == s) <==>
            after < s <= last && Deliverable(seen[t], w.ses.companion, s)
  {
    FetchedIsExact(w, seen, t, after, batch, last);
  }

  lemma DbStepRemembers(w: World, seen: map<nat, Db>, e: DbEvent)
    requires Remembers(w, seen)
    ensures Remembers(Step(w, Server(e)), seen)
  {
    StepKeepsValid(w.db, e);
    StepKeeps(w.db, w.db, w.ses.companion, e);
    forall t | t in w.ses.ticks && w.ses.ticks[t].Fetched?
      ensures Keeps(seen[t], DbStep(w.db, e), w.ses.companion)
    {
      assert TickRemembers(w, seen, t, w.ses.ticks[t]);
      StepKeeps(seen[t], w.db, w.ses.companion, e);
    }
  }

  lemma SessionStepRemembers(w: World, seen: map<nat, Db>, e: SessionEvent)
    requires Remembers(w, seen)
    ensures Remembers(Step(w, Client(e)), NextReads(w, seen, Client(e)))
  {
    if Delivers(w.ses, Client(e)) {
      var tick := w.ses.ticks[e.tick];
      FetchedIsExact(w, seen, e.tick, tick.after, tick.batch, CursorAfter(tick.after, tick.batch));
    }
  }

  lemma StepRemembers(w: World, seen: map<nat, Db>, e: Move)
    requires Remembers(w, seen)
    ensures Remembers(Step(w, e), NextReads(w, seen, e))
    ensures Step(w, e).ses.companion == w.ses.companion && Step(w, e).ses.start == w.ses.start
  {
    match e
    case Server(d) => DbStepRemembers(w, seen, d);
    case Client(s) => SessionStepRemembers(w, seen, s);
  }

  lemma {:induction false} RunRemembers(w: World, es: seq<Move>)
    requires Remembers(w, map[])
    ensures Remembers(Run(w, es), Reads(w, es))
    ensures Run(w, es).ses.companion == w.ses.companion && Run(w, es).ses.start == w.ses.start
  {
    if es != [] {
      RunRemembers(w, es[..|es| - 1]);
      StepRemembers(Run(w, es[..|es| - 1]), Reads(w, es[..|es| - 1]), es[|es| - 1]);
    }
  }

  lemma OpenRemembers(db: Db, c: string, limit: nat)
    requires Valid(db)
    ensures Remembers(World(db, Open(db, c, limit)), map[])
  {
  }

  /** Some event with this seq has been pushed. */
  ghost predicate Pushed(ses: Session, s: nat) {
    exists e :: e in ses.pushed && e.seqNo == s
  }

  lemma PushedMore(ses: Session, ses': Session, batch: seq<LoggedEvent>, s: nat)
    requires ses'.pushed == ses.pushed + batch
    ensures Pushed(ses', s) <==> Pushed(ses, s) || exists e :: e in batch && e.seqNo == s
  {
    assert forall e :: e in ses'.pushed <==> e in ses.pushed || e in batch;
  }

  lemma PushedNext(w: World, seen: map<nat, Db>, e: Move, s: nat)
    requires Remembers(w, seen)
    ensures Pushed(Step(w, e).ses, s) <==> Pushed(w.ses, s) || Catches(w, seen, e, s)
  {
    var w' := Step(w, e);
    if Delivers(w.ses, e) {
      var tick := w.ses.ticks[e.ses.tick];
      FetchedHas(w, seen, e.ses.tick, tick.after, tick.batch, CursorAfter(tick.after, tick.batch), s);
      PushedMore(w.ses, w'.ses, tick.batch, s);
    } else {
      assert w'.ses.pushed == w.ses.pushed + [];
      PushedMore(w.ses, w'.ses, [], s);
    }
  }

  lemma {:induction false} PushedIffCaught(w: World, es: seq<Move>, s: nat)
    requires Remembers(w, map[]) && w.ses.pushed == []
    ensures Pushed(Run(w, es).ses, s) <==> Caught(w, es, s)
  {
    if es != [] {
      PushedIffCaught(w, es[..|es| - 1], s);
      RunRemembers(w, es[..|es| - 1]);
      PushedNext(Run(w, es[..|es| - 1]), Reads(w, es[..|es| - 1]), es[|es| - 1], s);
    }
  }

  /** If the cursor, or a tick in flight, is past s, a batch passed it. */
  ghost predicate PassedInBatch(ses: Session, start: nat, s: nat, spanned: bool) {
    && (start < s <= ses.cursor ==> spanned)
    && (forall t :: t in ses.ticks && !ses.ticks[t].Renewing? && start < s <= ses.ticks[t].after ==> spanned)
  }

  lemma PassedNext(w: World, start: nat, s: nat, spanned: bool, e: Move)
    requires PassedInBatch(w.ses, start, s, spanned)
    ensures PassedInBatch(Step(w, e).ses, start, s, spanned || Spans(w.ses, e, s))
  {
  }

  lemma {:induction false} CursorMovesInBatches(w: World, es: seq<Move>, s: nat)
    requires w.ses.cursor == w.ses.start && w.ses.ticks == map[]
    ensures PassedInBatch(Run(w, es).ses, w.ses.start, s, Spanned(w, es, s))
  {
    if es != [] {
      var before, last := es[..|es| - 1], es[|es| - 1];
      CursorMovesInBatches(w, before, s);
      PassedNext(Run(w, before), w.ses.start, s, Spanned(w, before, s), last);
    }
  }

  /** A committed row the cursor has passed and the client never got. */
  predicate Lost(w: World, s: nat) {
    Visible(w.db, w.ses.companion, s) && w.ses.start < s <= w.ses.cursor && EventAt(w.db, s) !in w.ses.pushed
  }

  /** Over every run, whatever the writers and however ticks overlap: exactly which committed rows
      behind the cursor are lost. Some batch passed the row, and every batch that did was read
      while the row was not deliverable. */
  lemma RowIsLostIff(db: Db, c: string, limit: nat, es: seq<Move>, s: nat)
    requires Valid(db)
    ensures var w0 := World(db, Open(db, c, limit)); var w := Run(w0, es);
      Visible(w.db, c, s) && w.ses.start < s <= w.ses.cursor ==>
        && Spanned(w0, es, s)
        && (Lost(w, s) <==> !Caught(w0, es, s))
  {
    var w0 := World(db, Open(db, c, limit));
    var w := Run(w0, es);
    OpenRemembers(db, c, limit);
    RunRemembers(w0, es);
    PushedIffCaught(w0, es, s);
    CursorMovesInBatches(w0, es, s);
    PushedMeansItsEvent(w, Reads(w0, es), s);
  }

  lemma PushedMeansItsEvent(w: World, seen: map<nat, Db>, s: nat)
    requires Remembers(w, seen)
    ensures s in w.db.rows ==> (Pushed(w.ses, s) <==> EventAt(w.db, s) in w.ses.pushed)
  {
  }

  /** Everything between the first cursor and a value v is settled, and what is visible there was
      pushed. */
  ghost predicate PassedSafely(w: World, v: nat) {
    && w.ses.start <= v < w.db.nextSeq
    && forall s: nat :: w.ses.start < s <= v ==>
         Settled(w.db, w.ses.companion, s) && (Visible(w.db, w.ses.companion, s) ==> EventAt(w.db, s) in w.ses.pushed)
  }

  /** A batch that passed only settled seqs, and holds every row visible there. */
  ghost predicate SafeBatch(db: Db, c: string, after: nat, batch: seq<LoggedEvent>) {
    batch != [] ==>
      && after < CursorAfter(after, batch) < db.nextSeq
      && forall s: nat :: after < s <= CursorAfter(after, batch) ==>
           Settled(db, c, s) && (Visible(db, c, s) ==> EventAt(db, s) in batch)
  }

  ghost predicate SafeTick(w: World, tick: Tick) {
    match tick
    case Renewing => true
    case Asked(a) => PassedSafely(w, a)
    case Fetched(a, b) => PassedSafely(w, a) && SafeBatch(w.db, w.ses.companion, a, b)
  }

  ghost predicate AllSafe(w: World) {
    && Valid(w.db) && PassedSafely(w, w.ses.cursor)
    && forall t :: t in w.ses.ticks ==> SafeTick(w, w.ses.ticks[t])
  }

  /** If the move is a read that fetches rows, it is a safe one. */
  ghost predicate ReadsSafely(w: World, e: Move) {
    e.Client? && e.ses.Read? && e.ses.tick in w.ses.ticks && w.ses.ticks[e.ses.tick].Asked? ==>
      var after := w.ses.ticks[e.ses.tick].after;
      var batch := ReadSince(w.db, w.ses.companion, after, w.ses.limit);
      batch != [] ==> SafeRead(w.db, w.ses.companion, after, CursorAfter(after, batch))
  }

  ghost predicate AllReadSafely(w: World, es: seq<Move>) {
    es != [] ==>
      AllReadSafely(w, es[..|es| - 1]) && ReadsSafely(Run(w, es[..|es| - 1]), es[|es| - 1])
  }

  lemma PassedSafelySurvivesDb(w: World, e: DbEvent, v: nat)
    requires Valid(w.db) && PassedSafely(w, v)
    ensures PassedSafely(Step(w, Server(e)), v)
  {
    forall s: nat | w.ses.start < s <= v
      ensures Settled(DbStep(w.db, e), w.ses.companion, s)
      ensures Visible(DbStep(w.db, e), w.ses.companion, s) ==> EventAt(DbStep(w.db, e), s) in w.ses.pushed
    {
      SettledStays(w.db, w.ses.companion, e, s);
    }
    assert w.db.nextSeq <= DbStep(w.db, e).nextSeq;
  }

  lemma SafeBatchSurvivesDb(db: Db, c: string, e: DbEvent, after: nat, batch: seq<LoggedEvent>)
    requires Valid(db) && SafeBatch(db, c, after, batch)
    ensures SafeBatch(DbStep(db, e), c, after, batch)
  {
    if batch != [] {
      forall s: nat | after < s <= CursorAfter(after, batch)
        ensures Settled(DbStep(db, e), c, s)
        ensures Visible(DbStep(db, e), c, s) ==> EventAt(DbStep(db, e), s) in batch
      {
        SettledStays(db, c, e, s);
      }
    }
  }

  lemma DbStepStaysSafe(w: World, e: DbEvent)
    requires AllSafe(w)
    ensures AllSafe(Step(w, Server(e)))
  {
    StepKeepsValid(w.db, e);
    PassedSafelySurvivesDb(w, e, w.ses.cursor);
    forall t | t in w.ses.ticks
      ensures SafeTick(Step(w, Server(e)), w.ses.ticks[t])
    {
      match w.ses.ticks[t]
      case Renewing =>
      case Asked(a) => PassedSafelySurvivesDb(w, e, a);
      case Fetched(a, b) =>
        PassedSafelySurvivesDb(w, e, a);
        SafeBatchSurvivesDb(w.db, w.ses.companion, e, a, b);
    }
  }

  lemma SafeReadIsSafeBatch(db: Db, c: string, after: nat, limit: nat, batch: seq<LoggedEvent>)
    requires Valid(db) && batch == ReadSince(db, c, after, limit)
    requires batch != [] ==> SafeRead(db, c, after, CursorAfter(after, batch))
    ensures SafeBatch(db, c, after, batch)
  {
    if batch != [] {
      BatchIsExact(db, c, after, limit, CursorAfter(after, batch));
    }
  }

  lemma MoreIsPushed(w: World, w': World, v: nat)
    requires PassedSafely(w, v) && w'.db == w.db && w.ses.pushed <= w'.ses.pushed
    requires w'.ses.companion == w.ses.companion && w'.ses.start == w.ses.start
    ensures PassedSafely(w', v)
  {
    assert forall e :: e in w.ses.pushed ==> e in w'.ses.pushed;
  }

  lemma SessionStepStaysSafe(w: World, e: SessionEvent)
    requires AllSafe(w) && ReadsSafely(w, Client(e))
    ensures AllSafe(Step(w, Client(e)))
  {
    var w' := Step(w, Client(e));
    assert w.ses.pushed <= w'.ses.pushed;
    forall v | PassedSafely(w, v)
      ensures PassedSafely(w', v)
    {
      MoreIsPushed(w, w', v);
    }
    if e.Read? && e.tick in w.ses.ticks && w.ses.ticks[e.tick].Asked? {
      var after := w.ses.ticks[e.tick].after;
      SafeReadIsSafeBatch(w.db, w.ses.companion, after, w.ses.limit,
                          ReadSince(w.db, w.ses.companion, after, w.ses.limit));
    }
    if Delivers(w.ses, Client(e)) {
      BatchPassesSafely(w, w', w.ses.ticks[e.tick].after, w.ses.ticks[e.tick].batch);
    }
  }

  lemma BatchPassesSafely(w: World, w': World, after: nat, batch: seq<LoggedEvent>)
    requires PassedSafely(w, after) && SafeBatch(w.db, w.ses.companion, after, batch) && batch != []
    requires w'.db == w.db && w'.ses.companion == w.ses.companion && w'.ses.start == w.ses.start
    requires w'.ses.pushed == w.ses.pushed + batch
    ensures PassedSafely(w', CursorAfter(after, batch))
  {
  }

  lemma {:induction false} SafeReadsKeepSafe(w: World, es: seq<Move>)
    requires AllSafe(w) && AllReadSafely(w, es)
    ensures AllSafe(Run(w, es))
    ensures Run(w, es).ses.companion == w.ses.companion && Run(w, es).ses.start == w.ses.start
  {
    if es != [] {
      var before, last := es[..|es| - 1], es[|es| - 1];
      SafeReadsKeepSafe(w, before);
      match last
      case Server(d) => DbStepStaysSafe(Run(w, before), d);
      case Client(s) => SessionStepStaysSafe(Run(w, before), s);
    }
  }

  /** When every read is safe, no row is ever lost, in whatever order the writers assign seqs and
      transaction ids: not in the run, and not by anything the database does after it. */
  lemma SafeReadsLoseNothing(db: Db, c: string, limit: nat, es: seq<Move>, ds: seq<DbEvent>, s: nat)
    requires Valid(db) && AllReadSafely(World(db, Open(db, c, limit)), es)
    ensures var w := Run(World(db, Open(db, c, limit)), es);
      !Lost(w.(db := DbRun(w.db, ds)), s)
  {
    var w0 := World(db, Open(db, c, limit));
    SafeReadsKeepSafe(w0, es);
    var w := Run(w0, es);
    if w.ses.start < s <= w.ses.cursor {
      SettledForGood(w.db, c, ds, s);
    }
  }

  function Servers(ds: seq<DbEvent>): seq<Move> {
    if ds == [] then [] else Servers(ds[..|ds| - 1]) + [Server(ds[|ds| - 1])]
  }

  lemma {:induction false} RunOfServers(w: World, ds: seq<DbEvent>)
    ensures Run(w, Servers(ds)) == w.(db := DbRun(w.db, ds))
  {
    if ds != [] {
      RunOfServers(w, ds[..|ds| - 1]);
      RunSnoc(w, Servers(ds[..|ds| - 1]), Server(ds[|ds| - 1]));
    }
  }

  /** Tick t reads, the database goes on, and the tick delivers. */
  function ReadThenDeliver(t: nat, ds: seq<DbEvent>): seq<Move> {
    [Client(Read(t))] + Servers(ds) + [Client(Deliver(t))]
  }

  lemma ReadThenDeliverEnds(w: World, t: nat, ds: seq<DbEvent>, after: nat, batch: seq<LoggedEvent>)
    requires t in w.ses.ticks && w.ses.ticks[t] == Asked(after)
    requires batch == ReadSince(w.db, w.ses.companion, after, w.ses.limit)
    ensures var w' := Run(w, ReadThenDeliver(t, ds));
      && w'.db == DbRun(w.db, ds) && w'.ses.companion == w.ses.companion && w'.ses.start == w.ses.start
      && w'.ses.pushed == w.ses.pushed + batch && w'.ses.cursor == CursorAfter(w.ses.cursor, batch)
  {
    var w1 := Step(w, Client(Read(t)));
    RunSnoc(w, [], Client(Read(t)));
    assert [] + [Client(Read(t))] == [Client(Read(t))];
    RunConcat(w, [Client(Read(t))], Servers(ds));
    RunOfServers(w1, ds);
    RunSnoc(w, [Client(Read(t))] + Servers(ds), Client(Deliver(t)));
  }

  /** In every world a connection can reach, whatever the writers: a read that fetches rows can
      cost a row it passes, by some database steps before its delivery, if and only if it is not
      safe. */
  lemma ReadMayLoseIff(db: Db, c: string, limit: nat, es: seq<Move>, t: nat, after: nat, last: nat)
    requires Valid(db)
    requires var w := Run(World(db, Open(db, c, limit)), es);
      && t in w.ses.ticks && w.ses.ticks[t] == Asked(after)
      && ReadSince(w.db, c, after, limit) != [] && last == CursorAfter(after, ReadSince(w.db, c, after, limit))
    ensures var w := Run(World(db, Open(db, c, limit)), es);
      (exists ds, s: nat :: after < s <= last && Lost(Run(w, ReadThenDeliver(t, ds)), s)) <==>
      !SafeRead(w.db, c, after, last)
  {
    var w0 := World(db, Open(db, c, limit));
    OpenRemembers(db, c, limit);
    RunRemembers(w0, es);
    RunKeepsLimit(w0, es);
    ReachedReadMayLoseIff(Run(w0, es), Reads(w0, es), t, after, last);
  }

  lemma {:induction false} RunKeepsLimit(w: World, es: seq<Move>)
    ensures Run(w, es).ses.limit == w.ses.limit
  {
    if es != [] {
      RunKeepsLimit(w, es[..|es| - 1]);
    }
  }

  lemma ReachedReadMayLoseIff(w: World, seen: map<nat, Db>, t: nat, after: nat, last: nat)
    requires Remembers(w, seen) && t in w.ses.ticks && w.ses.ticks[t] == Asked(after)
    requires var batch := ReadSince(w.db, w.ses.companion, after, w.ses.limit);
      batch != [] && last == CursorAfter(after, batch)
    ensures (exists ds, s: nat :: after < s <= last && Lost(Run(w, ReadThenDeliver(t, ds)), s)) <==>
      !SafeRead(w.db, w.ses.companion, after, last)
  {
    var c, batch := w.ses.companion, ReadSince(w.db, w.ses.companion, after, w.ses.limit);
    BatchIsExact(w.db, c, after, w.ses.limit, last);
    if SafeRead(w.db, c, after, last) {
      forall ds, s: nat | after < s <= last
        ensures !Lost(Run(w, ReadThenDeliver(t, ds)), s)
      {
        SettledForGood(w.db, c, ds, s);
        ReadThenDeliverEnds(w, t, ds, after, batch);
      }
    } else {
      var s: nat :| after < s <= last && !Settled(w.db, c, s);
      var ds := Reveal(w.db, c, s);
      UnsettledIsRevealed(w.db, c, s);
      ReadThenDeliverEnds(w, t, ds, after, batch);
      assert TickRemembers(w, seen, t, Asked(after));
      assert Lost(Run(w, ReadThenDeliver(t, ds)), s);
    }
  }

  function ATick(): seq<Move> {
    [Client(Fire), Client(Renewed(0, Held))] + [Client(Read(0)), Client(Deliver(0))]
  }

  lemma RunOfTick(w: World, after: nat, batch: seq<LoggedEvent>)
    requires w.ses == Session("c", 200, 0, after, map[], 0, true, false, [])
    requires batch == ReadSince(w.db, "c", after, 200)
    ensures Run(w, ATick()) == w.(ses := Session("c", 200, 0, CursorAfter(after, batch), map[], 1, true, false, batch))
  {
    var w2 := Step(Step(w, Client(Fire)), Client(Renewed(0, Held)));
    assert w2.ses == Session("c", 200, 0, after, map[0 := Asked(after)], 1, true, false, []);
    var w3 := Step(w2, Client(Read(0)));
    assert w3.ses == Session("c", 200, 0, after, map[0 := Fetched(after, batch)], 1, true, false, []);
    RunOfTwo(w, Client(Fire), Client(Renewed(0, Held)));
    RunOfTwo(w2, Client(Read(0)), Client(Deliver(0)));
    RunConcat(w, [Client(Fire), Client(Renewed(0, Held))], [Client(Read(0)), Client(Deliver(0))]);
    assert Step(w3, Client(Deliver(0))).ses.ticks == map[];
  }

  /** Seq 2 is committed; seq 1 is still drawn, or its writer is still running. */
  function SecondOnly(pending: bool): Db {
    if pending then Db(3, 3, {}, map[2 := Row(1, "c", "second"), 1 := Row(2, "c", "first")], {2}, {1})
    else Db(3, 2, {1}, map[2 := Row(1, "c", "second")], {}, {1})
  }

  lemma ReadsSecondOnly(pending: bool)
    ensures ReadSince(SecondOnly(pending), "c", 0, 200) == [LoggedEvent(2, "second")]
  {
    var db := SecondOnly(pending);
    assert Xmin(db) == 2;
    assert Scan(db, "c", 3, 3) == [];
    assert Scan(db, "c", 2, 3) == [LoggedEvent(2, "second")];
    assert Scan(db, "c", 1, 3) == Scan(db, "c", 2, 3);
  }

  lemma UpToTheTick(w: World)
    requires w == World(AnEmptyLog(), Open(AnEmptyLog(), "c", 200))
    ensures Run(w, [Server(Draw), Server(Append("c", "second"))] + [Server(Insert(1, "c", "first")), Server(Commit(1))])
         == World(SecondOnly(true), Session("c", 200, 0, 0, map[], 0, true, false, []))
  {
    var w2 := Step(Step(w, Server(Draw)), Server(Append("c", "second")));
    assert w2.db == Db(3, 2, {1}, map[2 := Row(1, "c", "second")], {1}, {});
    RunOfTwo(w, Server(Draw), Server(Append("c", "second")));
    RunOfTwo(w2, Server(Insert(1, "c", "first")), Server(Commit(1)));
    RunConcat(w, [Server(Draw), Server(Append("c", "second"))], [Server(Insert(1, "c", "first")), Server(Commit(1))]);
    assert Step(Step(w2, Server(Insert(1, "c", "first"))), Server(Commit(1))).db == SecondOnly(true);
  }

  /** Inserted ahead of the cursor, committed after a tick: writer A draws seq 1, writer B appends
      seq 2, A inserts while the cursor is 0, B commits, a tick runs, A commits. */
  function InsertedAhead(): seq<Move> {
    [Server(Draw), Server(Append("c", "second"))] + [Server(Insert(1, "c", "first")), Server(Commit(1))]
    + ATick() + [Server(Commit(2))]
  }

  lemma InsertAheadOfTheCursorIsLost()
    ensures var w := Run(World(AnEmptyLog(), Open(AnEmptyLog(), "c", 200)), InsertedAhead());
      Lost(w, 1) && w.ses.pushed == [LoggedEvent(2, "second")]
  {
    var w0 := World(AnEmptyLog(), Open(AnEmptyLog(), "c", 200));
    var a := [Server(Draw), Server(Append("c", "second"))] + [Server(Insert(1, "c", "first")), Server(Commit(1))];
    UpToTheTick(w0);
    ReadsSecondOnly(true);
    RunOfTick(Run(w0, a), 0, [LoggedEvent(2, "second")]);
    RunConcat(w0, a, ATick());
    RunSnoc(w0, a + ATick(), Server(Commit(2)));
  }

  /** Inserted and committed while the cursor is still 0, but after a tick had read its batch. */
  function CommittedBeforeDelivery(): seq<Move> {
    [Server(Draw), Server(Append("c", "second")), Server(Commit(1))]
    + [Client(Fire), Client(Renewed(0, Held))]
    + ReadThenDeliver(0, [Insert(1, "c", "first"), Commit(2)])
  }

  lemma UpToTheRead(w0: World, w: World)
    requires w0 == World(AnEmptyLog(), Open(AnEmptyLog(), "c", 200))
    requires w == World(SecondOnly(false), Session("c", 200, 0, 0, map[0 := Asked(0)], 1, true, false, []))
    ensures Run(w0, [Server(Draw), Server(Append("c", "second")), Server(Commit(1))]
                    + [Client(Fire), Client(Renewed(0, Held))]) == w
  {
    var a := [Server(Draw), Server(Append("c", "second")), Server(Commit(1))];
    FirstHalfOfSplitRun(w0);
    RunOfTwo(Run(w0, a), Client(Fire), Client(Renewed(0, Held)));
    RunConcat(w0, a, [Client(Fire), Client(Renewed(0, Held))]);
  }

  lemma FirstIsShown()
    ensures Visible(DbRun(SecondOnly(false), [Insert(1, "c", "first"), Commit(2)]), "c", 1)
  {
    var db, ds := SecondOnly(false), [Insert(1, "c", "first"), Commit(2)];
    assert ds[..1] == [ds[0]] && ds[..1][..0] == [];
    assert DbRun(db, ds[..1]) == DbStep(db, ds[0]);
  }

  lemma CommitBeforeDeliveryIsLost()
    ensures var w := Run(World(AnEmptyLog(), Open(AnEmptyLog(), "c", 200)), CommittedBeforeDelivery());
      Lost(w, 1) && w.ses.pushed == [LoggedEvent(2, "second")]
  {
    var w0 := World(AnEmptyLog(), Open(AnEmptyLog(), "c", 200));
    var w := World(SecondOnly(false), Session("c", 200, 0, 0, map[0 := Asked(0)], 1, true, false, []));
    UpToTheRead(w0, w);
    ReadsSecondOnly(false);
    FirstIsShown();
    ReadThenDeliverEnds(w, 0, [Insert(1, "c", "first"), Commit(2)], 0, [LoggedEvent(2, "second")]);
    RunConcat(w0, [Server(Draw), Server(Append("c", "second")), Server(Commit(1))]
                  + [Client(Fire), Client(Renewed(0, Held))], ReadThenDeliver(0, [Insert(1, "c", "first"), Commit(2)]));
  }
}
