/** The event table, told by the events of a run alone: which numbers were drawn, what each row
    holds, and how each transaction ended. The theorem says that the database agrees. */
module LogHistory {
  import opened Wrappers
  import opened EventLog

  function RunDb(es: seq<DbEvent>): Db {
    if es == [] then Db(1, 1, {}, map[], {}, {}) else DbStep(RunDb(es[..|es| - 1]), es[|es| - 1])
  }

  /** How many sequence numbers were drawn. */
  function Seqs(es: seq<DbEvent>): nat {
    if es == [] then 0
    else Seqs(es[..|es| - 1]) + if es[|es| - 1].Draw? || es[|es| - 1].Append? then 1 else 0
  }

  /** A number drawn for a row that has not been inserted yet. */
  predicate DrawnIn(es: seq<DbEvent>, s: nat) {
    && es != []
    && var before, e := es[..|es| - 1], es[|es| - 1];
       (DrawnIn(before, s) && !(e.Insert? && e.seqNo == s)) || (e.Draw? && s == Seqs(before) + 1)
  }

  /** The event opens a transaction: by itself, or for the one row it inserts. */
  predicate Opens(es: seq<DbEvent>, e: DbEvent) {
    e.Begin? || e.Append? || (e.Insert? && DrawnIn(es, e.seqNo))
  }

  function Transactions(es: seq<DbEvent>): nat {
    if es == [] then 0 else Transactions(es[..|es| - 1]) + if Opens(es[..|es| - 1], es[|es| - 1]) then 1 else 0
  }

  function RowIn(es: seq<DbEvent>, s: nat): Option<Row> {
    if es == [] then None
    else
      var before := es[..|es| - 1];
      var xid := Transactions(before) + 1;
      match es[|es| - 1]
      case Append(c, p) => if s == Seqs(before) + 1 then Some(Row(xid, c, p)) else RowIn(before, s)
      case Insert(n, c, p) => if s == n && DrawnIn(before, n) then Some(Row(xid, c, p)) else RowIn(before, s)
      case _ => RowIn(before, s)
  }

  datatype Fate = Unknown | Runs | Committed | Aborted

  /** A transaction ends once: by the first commit or abort after it was opened. */
  function FateOf(es: seq<DbEvent>, x: nat): Fate {
    if es == [] then Unknown
    else
      var before, e := es[..|es| - 1], es[|es| - 1];
      var p := FateOf(before, x);
      if Opens(before, e) && x == Transactions(before) + 1 then Runs
      else if p == Runs && e == Commit(x) then Committed
      else if p == Runs && e == Abort(x) then Aborted
      else p
  }

  ghost predicate Follows(es: seq<DbEvent>, db: Db) {
    && Valid(db) && db.nextSeq == Seqs(es) + 1 && db.nextXid == Transactions(es) + 1
    && (forall s: nat :: s in db.drawn <==> DrawnIn(es, s))
    && (forall s: nat :: RowIn(es, s) == if s in db.rows then Some(db.rows[s]) else None)
    && (forall x: nat :: FateOf(es, x) == Runs <==> x in db.running)
    && (forall x: nat :: FateOf(es, x) == Committed <==> x in db.committed)
    && (forall x: nat :: x >= db.nextXid ==> FateOf(es, x) == Unknown)
  }

  lemma OneMoreEvent(es: seq<DbEvent>, e: DbEvent, db: Db)
    requires Follows(es, db)
    ensures Follows(es + [e], DbStep(db, e))
  {
    assert (es + [e])[..|es|] == es;
    StepKeepsValid(db, e);
  }

  /** The table and its transactions, over every run from an empty log. */
  lemma {:induction false} TableIsItsHistory(es: seq<DbEvent>)
    ensures Follows(es, RunDb(es))
  {
    if es != [] {
      var before := es[..|es| - 1];
      TableIsItsHistory(before);
      assert before + [es[|es| - 1]] == es;
      OneMoreEvent(before, es[|es| - 1], RunDb(before));
    }
  }

  lemma HorizonIsTheOldest(es: seq<DbEvent>, db: Db, x: nat)
    requires Follows(es, db) && x < db.nextXid
    ensures x < Xmin(db) <==> FateOf(es, x) != Runs && forall y: nat :: y < x ==> FateOf(es, y) != Runs
  {
    var horizon := Xmin(db);
    if x < horizon {
      forall y: nat | y <= x
        ensures FateOf(es, y) != Runs
      {
        assert y !in db.running;
      }
    } else {
      assert FateOf(es, horizon) == Runs;
    }
  }

  /** So a reader sees exactly the companion's rows whose transaction committed, and may be handed
      those whose every elder transaction has ended. */
  lemma VisibleIffItsTransactionCommitted(es: seq<DbEvent>, c: string, s: nat)
    ensures var row := RowIn(es, s);
      && (Visible(RunDb(es), c, s) <==>
            row.Some? && row.value.companion == c && FateOf(es, row.value.xid) == Committed)
      && (Deliverable(RunDb(es), c, s) <==>
            && row.Some? && row.value.companion == c && FateOf(es, row.value.xid) == Committed
            && forall x: nat :: x < row.value.xid ==> FateOf(es, x) != Runs)
  {
    TableIsItsHistory(es);
    var db := RunDb(es);
    if Visible(db, c, s) {
      HorizonIsTheOldest(es, db, db.rows[s].xid);
    }
  }
}
