/** The durable per-companion event log: one Postgres table, its writers' transactions,
    and the two horizon reads made over it.

    A row has a sequence number, drawn when its INSERT runs, and the id of the inserting
    transaction; it is visible once that transaction has committed. `Append` draws both
    numbers in one atomic step, which is what the log assumes of Postgres. `Draw` and
    `Insert` are the two halves of a split assignment, kept so that the assumption can
    be stated and its failure exhibited. */
module EventLog {

  datatype Row = Row(xid: nat, companion: string, payload: string)

  datatype LoggedEvent = LoggedEvent(seqNo: nat, payload: string)

  /** The table, keyed by its primary key `seq`, with the transaction manager's state. */
  datatype Db = Db(
    nextSeq: nat,
    nextXid: nat,
    drawn: set<nat>,
    rows: map<nat, Row>,
    running: set<nat>,
    committed: set<nat>)

  ghost predicate Valid(db: Db) {
    && 1 <= db.nextSeq
    && (forall s :: s in db.rows ==> 1 <= s < db.nextSeq && db.rows[s].xid < db.nextXid)
    && (forall s :: s in db.drawn ==> 1 <= s < db.nextSeq && s !in db.rows)
    && (forall x :: x in db.running ==> x < db.nextXid)
    && (forall x :: x in db.committed ==> x < db.nextXid)
    && db.running !! db.committed
  }

  datatype DbEvent =
    | Draw
    | Insert(seqNo: nat, companion: string, payload: string)
    | Append(companion: string, payload: string)
    | Begin
    | Commit(xid: nat)
    | Abort(xid: nat)

  function DbStep(db: Db, e: DbEvent): (r: Db) {
    match e
    case Draw =>
      db.(nextSeq := db.nextSeq + 1, drawn := db.drawn + {db.nextSeq})
    case Insert(s, c, p) =>
      if s in db.drawn then
        db.(nextXid := db.nextXid + 1, drawn := db.drawn - {s},
        rows := db.rows[s := Row(db.nextXid, c, p)], running := db.running + {db.nextXid})
      else db
    case Append(c, p) =>
      db.(nextSeq := db.nextSeq + 1, nextXid := db.nextXid + 1,
      rows := db.rows[db.nextSeq := Row(db.nextXid, c, p)], running := db.running + {db.nextXid})
    case Begin =>
      db.(nextXid := db.nextXid + 1, running := db.running + {db.nextXid})
    case Commit(x) =>
      if x in db.running then db.(running := db.running - {x}, committed := db.committed + {x}) else db
    case Abort(x) =>
      db.(running := db.running - {x})
  }

  lemma StepKeepsValid(db: Db, e: DbEvent)
    requires Valid(db)
    ensures Valid(DbStep(db, e))
  {
  }

  /** The least running transaction id in [from, end), or `end`. */
  function Oldest(running: set<nat>, from: nat, end: nat): (r: nat)
    requires from <= end
    ensures from <= r <= end
    ensures r == end || r in running
    ensures forall x :: from <= x < r ==> x !in running
    decreases end - from
  {
    if from == end || from in running then from else Oldest(running, from + 1, end)
  }

  /** The snapshot's xmin: every transaction below it has committed or aborted. */
  function Xmin(db: Db): (r: nat) {
    Oldest(db.running, 0, db.nextXid)
  }

  lemma HorizonNeverMovesBack(db: Db, e: DbEvent)
    requires Valid(db)
    ensures Xmin(db) <= Xmin(DbStep(db, e))
  {
  }

  predicate Of(db: Db, c: string, s: nat) {
    s in db.rows && db.rows[s].companion == c
  }

  predicate Visible(db: Db, c: string, s: nat) {
    Of(db, c, s) && db.rows[s].xid in db.committed
  }

  predicate Deliverable(db: Db, c: string, s: nat) {
    Visible(db, c, s) && db.rows[s].xid < Xmin(db)
  }

  function EventAt(db: Db, s: nat): LoggedEvent
    requires s in db.rows
  {
    LoggedEvent(s, db.rows[s].payload)
  }

  /** The companion's deliverable rows with lo <= seq < hi, in ascending seq order. */
  function Scan(db: Db, c: string, lo: nat, hi: nat): (r: seq<LoggedEvent>)
    decreases hi - lo
  {
    if lo >= hi then []
    else (if Deliverable(db, c, lo) then [EventAt(db, lo)] else []) + Scan(db, c, lo + 1, hi)
  }

  /** The committed rows with lo <= seq < hi, whatever the horizon says: the reference
      that delivery is measured against. */
  function Committed(db: Db, c: string, lo: nat, hi: nat): (r: seq<LoggedEvent>)
    decreases hi - lo
  {
    if lo >= hi then []
    else (if Visible(db, c, lo) then [EventAt(db, lo)] else []) + Committed(db, c, lo + 1, hi)
  }

  function Take<T>(s: seq<T>, n: nat): seq<T> {
    if |s| <= n then s else s[..n]
  }

  /** Deliverable rows with seq > after, oldest first, at most `limit` of them. */
  function ReadSince(db: Db, c: string, after: nat, limit: nat): (r: seq<LoggedEvent>) {
    Take(Scan(db, c, after + 1, db.nextSeq), limit)
  }

  function NewestDeliverable(db: Db, c: string, below: nat): (r: nat)
    ensures r == 0 || (r < below && Deliverable(db, c, r))
    ensures forall s :: r < s < below ==> !Deliverable(db, c, s)
    decreases below
  {
    if below == 0 then 0
    else if Deliverable(db, c, below - 1) then below - 1
    else NewestDeliverable(db, c, below - 1)
  }

  /** The newest deliverable seq, 0 when there is none: a connection's first cursor. */
  function LatestSettledSeq(db: Db, c: string): (r: nat) {
    NewestDeliverable(db, c, db.nextSeq)
  }

  predicate Ascending(s: seq<LoggedEvent>) {
    forall i, j :: 0 <= i < j < |s| ==> s[i].seqNo < s[j].seqNo
  }

  /** A scan holds exactly the deliverable rows of its range, each once, in order. */
  lemma {:induction false} ScanIsExact(db: Db, c: string, lo: nat, hi: nat)
    ensures Ascending(Scan(db, c, lo, hi))
    ensures forall e :: e in Scan(db, c, lo, hi) <==>
      lo <= e.seqNo < hi && Deliverable(db, c, e.seqNo) && e == EventAt(db, e.seqNo)
    decreases hi - lo
  {
    if lo < hi {
      ScanIsExact(db, c, lo + 1, hi);
    }
  }

  lemma {:induction false} ScanSplits(db: Db, c: string, lo: nat, mid: nat, hi: nat)
    requires lo <= mid <= hi
    ensures Scan(db, c, lo, hi) == Scan(db, c, lo, mid) + Scan(db, c, mid, hi)
    decreases mid - lo
  {
    if lo < mid {
      ScanSplits(db, c, lo + 1, mid, hi);
    }
  }

  lemma AscendingCut(whole: seq<LoggedEvent>, a: seq<LoggedEvent>, b: seq<LoggedEvent>, k: nat)
    requires whole == a + b && Ascending(whole) && 0 < k <= |whole|
    requires forall e :: e in a ==> e.seqNo <= whole[k - 1].seqNo
    requires forall e :: e in b ==> e.seqNo > whole[k - 1].seqNo
    ensures whole[..k] == a
  {
    var x := whole[k - 1].seqNo;
    forall i | 0 <= i < |whole|
      ensures whole[i].seqNo <= x <==> i < |a|
    {
      assert if i < |a| then whole[i] == a[i] else whole[i] == b[i - |a|];
      assert whole[i] in a || whole[i] in b;
    }
    if |a| < |whole| {
      assert whole[|a|].seqNo > x;
    }
    if k < |whole| {
      assert whole[k].seqNo > x;
    }
  }

  /** Cutting a scan at a delivered row is scanning up to that row: a batch limit leaves
      no hole behind the new cursor. */
  lemma PrefixIsScan(db: Db, c: string, lo: nat, hi: nat, k: nat)
    requires 0 < k <= |Scan(db, c, lo, hi)|
    ensures Scan(db, c, lo, hi)[..k] == Scan(db, c, lo, Scan(db, c, lo, hi)[k - 1].seqNo + 1)
  {
    var whole := Scan(db, c, lo, hi);
    ScanIsExact(db, c, lo, hi);
    assert whole[k - 1] in whole;
    var mid := whole[k - 1].seqNo + 1;
    ScanSplits(db, c, lo, mid, hi);
    ScanIsExact(db, c, lo, mid);
    ScanIsExact(db, c, mid, hi);
    AscendingCut(whole, Scan(db, c, lo, mid), Scan(db, c, mid, hi), k);
  }

  lemma ReadIsScan(db: Db, c: string, after: nat, limit: nat)
    requires ReadSince(db, c, after, limit) != []
    ensures var batch := ReadSince(db, c, after, limit);
      batch == Scan(db, c, after + 1, batch[|batch| - 1].seqNo + 1)
  {
    var batch := ReadSince(db, c, after, limit);
    PrefixIsScan(db, c, after + 1, db.nextSeq, |batch|);
    assert Scan(db, c, after + 1, db.nextSeq)[..|batch|] == batch;
  }

  lemma PlaceInScan(db: Db, c: string, lo: nat, s: nat, hi: nat)
    requires lo <= s < hi && Deliverable(db, c, s)
    ensures var k := |Scan(db, c, lo, s)|; k < |Scan(db, c, lo, hi)| && Scan(db, c, lo, hi)[k] == EventAt(db, s)
  {
    ScanSplits(db, c, lo, s, hi);
  }

  lemma TakenIff(whole: seq<LoggedEvent>, limit: nat, k: nat, s: nat)
    requires Ascending(whole) && k < |whole| && whole[k].seqNo == s
    ensures (exists e :: e in Take(whole, limit) && e.seqNo == s) <==> k < limit
  {
    var batch := Take(whole, limit);
    if k < limit {
      assert batch[k] == whole[k];
    }
    if e :| e in batch && e.seqNo == s {
      var i :| 0 <= i < |batch| && batch[i] == e;
      assert whole[i] == e;
    }
  }

  lemma TakenAreThere(whole: seq<LoggedEvent>, limit: nat)
    ensures |Take(whole, limit)| <= limit && forall e :: e in Take(whole, limit) ==> e in whole
  {
  }

  /** The limit: a row is read exactly if it is deliverable, beyond the cursor, and fewer than
      `limit` such rows come before it. */
  lemma RowIsReadIff(db: Db, c: string, after: nat, limit: nat, s: nat)
    requires Valid(db)
    ensures (exists e :: e in ReadSince(db, c, after, limit) && e.seqNo == s) <==>
            after < s && Deliverable(db, c, s) && |Scan(db, c, after + 1, s)| < limit
    ensures |ReadSince(db, c, after, limit)| <= limit
  {
    var whole := Scan(db, c, after + 1, db.nextSeq);
    ScanIsExact(db, c, after + 1, db.nextSeq);
    TakenAreThere(whole, limit);
    if after < s && Deliverable(db, c, s) {
      PlaceInScan(db, c, after + 1, s, db.nextSeq);
      TakenIff(whole, limit, |Scan(db, c, after + 1, s)|, s);
    }
  }

  /** Below the horizon the two reads agree. */
  lemma {:induction false} SettledScanIsCommitted(db: Db, c: string, lo: nat, hi: nat)
    requires forall s :: lo <= s < hi && Of(db, c, s) ==> db.rows[s].xid < Xmin(db)
    ensures Scan(db, c, lo, hi) == Committed(db, c, lo, hi)
    decreases hi - lo
  {
    if lo < hi {
      SettledScanIsCommitted(db, c, lo + 1, hi);
    }
  }

  lemma {:induction false} CommittedSplits(db: Db, c: string, lo: nat, mid: nat, hi: nat)
    requires lo <= mid <= hi
    ensures Committed(db, c, lo, hi) == Committed(db, c, lo, mid) + Committed(db, c, mid, hi)
    decreases mid - lo
  {
    if lo < mid {
      CommittedSplits(db, c, lo + 1, mid, hi);
    }
  }

  lemma {:induction false} CommittedIsExact(db: Db, c: string, lo: nat, hi: nat)
    ensures Ascending(Committed(db, c, lo, hi))
    ensures forall e :: e in Committed(db, c, lo, hi) <==>
      lo <= e.seqNo < hi && Visible(db, c, e.seqNo) && e == EventAt(db, e.seqNo)
    decreases hi - lo
  {
    if lo < hi {
      CommittedIsExact(db, c, lo + 1, hi);
    }
  }

  /** Two databases that agree on a range's rows agree on its committed events. */
  lemma {:induction false} CommittedDependsOnRange(db: Db, db': Db, c: string, lo: nat, hi: nat)
    requires forall s :: lo <= s < hi ==>
      (Visible(db, c, s) <==> Visible(db', c, s)) && (Visible(db, c, s) ==> db.rows[s] == db'.rows[s])
    ensures Committed(db, c, lo, hi) == Committed(db', c, lo, hi)
    decreases hi - lo
  {
    if lo < hi {
      CommittedDependsOnRange(db, db', c, lo + 1, hi);
    }
  }

  /** The Drizzle-backed log: `append` is a single-statement autocommit insert, split here
      where another transaction can run, between the insert and its commit. */
  class CompanionEventLog {
    var nextSeq: nat
    var nextXid: nat
    var rows: map<nat, Row>
    var running: set<nat>
    var committed: set<nat>

    function View(): Db
      reads this
    {
      Db(nextSeq, nextXid, {}, rows, running, committed)
    }

    constructor ()
      ensures Valid(View()) && View() == Db(1, 1, {}, map[], {}, {})
    {
      nextSeq, nextXid, rows, running, committed := 1, 1, map[], {}, {};
    }

    method BeginAppend(companion: string, payload: string) returns (xid: nat)
      requires Valid(View())
      modifies this
      ensures Valid(View()) && View() == DbStep(old(View()), Append(companion, payload))
      ensures xid in running && xid == old(nextXid)
    {
      xid := nextXid;
      rows := rows[nextSeq := Row(xid, companion, payload)];
      running := running + {xid};
      nextSeq, nextXid := nextSeq + 1, nextXid + 1;
    }

    method EndAppend(xid: nat, committing: bool)
      requires Valid(View()) && xid in running
      modifies this
      ensures Valid(View())
      ensures View() == DbStep(old(View()), if committing then Commit(xid) else Abort(xid))
    {
      running := running - {xid};
      if committing {
        committed := committed + {xid};
      }
    }

    /** The index scan behind `readSince`: walk seq upwards, stop at the limit. */
    method ReadRows(companion: string, after: nat, limit: nat) returns (batch: seq<LoggedEvent>)
      requires Valid(View())
      ensures batch == ReadSince(View(), companion, after, limit)
    {
      batch := [];
      var s := after + 1;
      while s < nextSeq && |batch| < limit
        invariant after < s
        invariant |batch| <= limit
        invariant after + 1 <= nextSeq ==> s <= nextSeq
        invariant Scan(View(), companion, after + 1, nextSeq) == batch + Scan(View(), companion, s, nextSeq)
      {
        if Deliverable(View(), companion, s) {
          batch := batch + [EventAt(View(), s)];
        }
        s := s + 1;
      }
    }

    /** The descending index scan behind `latestSettledSeq`. */
    method LatestSettled(companion: string) returns (newest: nat)
      requires Valid(View())
      ensures newest == LatestSettledSeq(View(), companion)
    {
      var below: nat := nextSeq;
      while below > 0
        invariant below <= nextSeq
        invariant NewestDeliverable(View(), companion, nextSeq) == NewestDeliverable(View(), companion, below)
      {
        if Deliverable(View(), companion, below - 1) {
          return below - 1;
        }
        below := below - 1;
      }
      newest := 0;
    }
  }
}
