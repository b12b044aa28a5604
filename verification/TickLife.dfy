/** The life of every heartbeat tick, told by the events of a run alone: which ticks were fired,
    what their renews answered, and what each of them read and pushed. Nothing here looks at the
    session; the theorems say that the session agrees. */
module TickLife {
  import opened EventLog
  import opened Delivery

  datatype Phase = Unfired | Renews | Asks | Holds | Ended

  /** The tick's renew comes back lost: another connection has the room. */
  predicate Loses(es: seq<Move>, e: Move, t: nat)
    decreases |es|, 3
  {
    e == Client(Renewed(t, Lost)) && PhaseOf(es, t) == Renews
  }

  /** Some renew was answered so. */
  predicate LostIn(es: seq<Move>)
    decreases |es|, 1
  {
    && es != []
    && var before, e := es[..|es| - 1], es[|es| - 1];
       LostIn(before) || (e.Client? && e.ses.Renewed? && Loses(before, e, e.ses.tick))
  }

  /** The heartbeat runs until a renew is lost or the socket closes. */
  predicate Beating(es: seq<Move>)
    decreases |es|, 2
  {
    !LostIn(es) && Client(SocketClosed) !in es
  }

  /** How many ticks the interval has started. */
  function Fired(es: seq<Move>): nat
    decreases |es|, 1
  {
    if es == [] then 0
    else
      var before := es[..|es| - 1];
      Fired(before) + if es[|es| - 1] == Client(Fire) && Beating(before) then 1 else 0
  }

  /** Fire, a held renew, a read and a delivery, in that order; any other answer ends the tick. */
  function PhaseOf(es: seq<Move>, t: nat): Phase
    decreases |es|, 1
  {
    if es == [] then Unfired
    else
      var before, e := es[..|es| - 1], es[|es| - 1];
      var p := PhaseOf(before, t);
      if e == Client(Fire) && Beating(before) && t == Fired(before) then Renews
      else if e == Client(Renewed(t, Held)) && p == Renews then Asks
      else if e == Client(Read(t)) && p == Asks then Holds
      else if (e == Client(Renewed(t, Lost)) || e == Client(Renewed(t, Unreachable))) && p == Renews then Ended
      else if e == Client(ReadFailed(t)) && p == Asks then Ended
      else if e == Client(Deliver(t)) && p == Holds then Ended
      else p
  }

  /** The database the writers have left. */
  function DbAfter(db: Db, es: seq<Move>): Db {
    if es == [] then db
    else
      var before := DbAfter(db, es[..|es| - 1]);
      if es[|es| - 1].Server? then DbStep(before, es[|es| - 1].db) else before
  }

  /** The cursor a tick asks with: as it was when its renew came back held. */
  function AskedWith(w: World, es: seq<Move>, t: nat): nat
    decreases |es|, 1
  {
    if es == [] then 0
    else
      var before := es[..|es| - 1];
      if es[|es| - 1] == Client(Renewed(t, Held)) && PhaseOf(before, t) == Renews
      then CursorAfter(w.ses.start, PushedBy(w, before)) else AskedWith(w, before, t)
  }

  /** The rows a tick was sent: what the database had for it when its query ran. */
  function SentTo(w: World, es: seq<Move>, t: nat): seq<LoggedEvent>
    decreases |es|, 1
  {
    if es == [] then []
    else
      var before := es[..|es| - 1];
      if es[|es| - 1] == Client(Read(t)) && PhaseOf(before, t) == Asks
      then ReadSince(DbAfter(w.db, before), w.ses.companion, AskedWith(w, before, t), w.ses.limit)
      else SentTo(w, before, t)
  }

  /** Everything pushed: the rows each tick was sent, in the order their deliveries ran. */
  function PushedBy(w: World, es: seq<Move>): seq<LoggedEvent>
    decreases |es|, 2
  {
    if es == [] then []
    else
      var before, e := es[..|es| - 1], es[|es| - 1];
      PushedBy(w, before)
      + if e.Client? && e.ses.Deliver? && PhaseOf(before, e.ses.tick) == Holds then SentTo(w, before, e.ses.tick)
        else []
  }

  ghost predicate Fresh(w: World) {
    w.ses.ticks == map[] && w.ses.nextTick == 0 && w.ses.live && !w.ses.superseded
    && w.ses.pushed == [] && w.ses.cursor == w.ses.start
  }

  /** Where the session has a tick. */
  predicate TickAt(w: World, es: seq<Move>, ticks: map<nat, Tick>, t: nat) {
    match PhaseOf(es, t)
    case Renews => t in ticks && ticks[t] == Renewing
    case Asks => t in ticks && ticks[t] == Asked(AskedWith(w, es, t))
    case Holds => t in ticks && ticks[t] == Fetched(AskedWith(w, es, t), SentTo(w, es, t))
    case _ => t !in ticks
  }

  ghost predicate FlagsFollow(es: seq<Move>, ses: Session) {
    && (ses.superseded <==> LostIn(es))
    && (ses.live <==> Beating(es))
    && ses.nextTick == Fired(es)
    && forall t: nat :: t >= Fired(es) ==> PhaseOf(es, t) == Unfired
  }

  ghost predicate RowsFollow(w: World, es: seq<Move>, now: World) {
    && now.db == DbAfter(w.db, es)
    && now.ses.companion == w.ses.companion && now.ses.limit == w.ses.limit && now.ses.start == w.ses.start
    && now.ses.pushed == PushedBy(w, es)
    && now.ses.cursor == CursorAfter(w.ses.start, PushedBy(w, es))
  }

  ghost predicate TicksFollow(w: World, es: seq<Move>, ses: Session) {
    forall t: nat :: TickAt(w, es, ses.ticks, t)
  }

  lemma OneMoreFlags(w: World, es: seq<Move>, e: Move, now: World)
    requires FlagsFollow(es, now.ses) && TicksFollow(w, es, now.ses)
    ensures FlagsFollow(es + [e], Step(now, e).ses)
  {
    var more := es + [e];
    assert more[..|more| - 1] == es;
    assert Client(SocketClosed) in more <==> Client(SocketClosed) in es || e == Client(SocketClosed);
    if e.Client? && e.ses.Renewed? {
      assert TickAt(w, es, now.ses.ticks, e.ses.tick);
    }
  }

  lemma OneMoreTick(w: World, es: seq<Move>, e: Move, now: World, t: nat)
    requires FlagsFollow(es, now.ses) && RowsFollow(w, es, now) && TicksFollow(w, es, now.ses)
    ensures TickAt(w, es + [e], Step(now, e).ses.ticks, t)
  {
    var more := es + [e];
    assert more[..|more| - 1] == es;
    assert TickAt(w, es, now.ses.ticks, t);
  }

  lemma DeliveredRows(w: World, es: seq<Move>, t: nat, now: World)
    requires RowsFollow(w, es, now) && TickAt(w, es, now.ses.ticks, t)
    ensures RowsFollow(w, es + [Client(Deliver(t))], Step(now, Client(Deliver(t))))
  {
    var more := es + [Client(Deliver(t))];
    assert more[..|more| - 1] == es;
  }

  lemma OtherRows(w: World, es: seq<Move>, e: Move, now: World)
    requires RowsFollow(w, es, now) && !(e.Client? && e.ses.Deliver?)
    ensures RowsFollow(w, es + [e], Step(now, e))
  {
    var more := es + [e];
    assert more[..|more| - 1] == es;
    assert PushedBy(w, more) == PushedBy(w, es);
  }

  lemma OneMoreRows(w: World, es: seq<Move>, e: Move, now: World)
    requires RowsFollow(w, es, now) && TicksFollow(w, es, now.ses)
    ensures RowsFollow(w, es + [e], Step(now, e))
  {
    if e.Client? && e.ses.Deliver? {
      DeliveredRows(w, es, e.ses.tick, now);
    } else {
      OtherRows(w, es, e, now);
    }
  }

  lemma {:induction false} RunFollows(w: World, es: seq<Move>)
    requires Fresh(w)
    ensures FlagsFollow(es, Run(w, es).ses) && RowsFollow(w, es, Run(w, es)) && TicksFollow(w, es, Run(w, es).ses)
  {
    if es != [] {
      var before, e := es[..|es| - 1], es[|es| - 1];
      var now := Run(w, before);
      assert before + [e] == es;
      RunFollows(w, before);
      OneMoreFlags(w, before, e, now);
      OneMoreRows(w, before, e, now);
      forall t: nat
        ensures TickAt(w, es, Step(now, e).ses.ticks, t)
      {
        OneMoreTick(w, before, e, now, t);
      }
    }
  }

  /** The flags of a session, over every run: it was superseded exactly when a renew that a tick
      was waiting for came back lost, and its heartbeat is off exactly when one did or the socket
      was closed. */
  lemma SupersededIffARenewWasLost(db: Db, c: string, limit: nat, es: seq<Move>)
    ensures var ses := Run(World(db, Open(db, c, limit)), es).ses;
      && (ses.superseded <==> LostIn(es))
      && (ses.live <==> !LostIn(es) && Client(SocketClosed) !in es)
  {
    RunFollows(World(db, Open(db, c, limit)), es);
  }

  /** The ticks in flight, over every run: where each one stands and what it carries. Whether its
      renew failed, its query failed or its rows were pushed, a tick that is over is gone. */
  lemma TicksStandWhereTheirEventsLeftThem(db: Db, c: string, limit: nat, es: seq<Move>, t: nat)
    ensures var w := World(db, Open(db, c, limit)); var ticks := Run(w, es).ses.ticks;
      && (t in ticks <==> PhaseOf(es, t) != Unfired && PhaseOf(es, t) != Ended)
      && (PhaseOf(es, t) == Renews ==> ticks[t] == Renewing)
      && (PhaseOf(es, t) == Asks ==> ticks[t] == Asked(AskedWith(w, es, t)))
      && (PhaseOf(es, t) == Holds ==> ticks[t] == Fetched(AskedWith(w, es, t), SentTo(w, es, t)))
  {
    var w := World(db, Open(db, c, limit));
    RunFollows(w, es);
    assert TickAt(w, es, Run(w, es).ses.ticks, t);
  }

  /** What the socket was sent, over every run: for each tick whose renew was held and whose query
      ran, the rows that query found after the cursor of that renew, in the order of delivery;
      and the cursor is the last of them. */
  lemma PushedIsWhatTheTicksRead(db: Db, c: string, limit: nat, es: seq<Move>)
    ensures var w := World(db, Open(db, c, limit)); var ses := Run(w, es).ses;
      ses.pushed == PushedBy(w, es) && ses.cursor == CursorAfter(LatestSettledSeq(db, c), PushedBy(w, es))
  {
    RunFollows(World(db, Open(db, c, limit)), es);
  }

  lemma {:induction false} EndedForGood(es: seq<Move>, more: seq<Move>, t: nat)
    requires PhaseOf(es, t) == Ended && t < Fired(es)
    ensures PhaseOf(es + more, t) == Ended && t < Fired(es + more)
  {
    if more == [] {
      assert es + more == es;
    } else {
      EndedForGood(es, more[..|more| - 1], t);
      assert (es + more)[..|es + more| - 1] == es + more[..|more| - 1];
    }
  }

  lemma {:induction false} LostForGood(es: seq<Move>, more: seq<Move>)
    requires LostIn(es)
    ensures LostIn(es + more) && Fired(es + more) == Fired(es)
  {
    if more == [] {
      assert es + more == es;
    } else {
      LostForGood(es, more[..|more| - 1]);
      assert (es + more)[..|es + more| - 1] == es + more[..|more| - 1];
    }
  }

  lemma LosingEnds(es: seq<Move>, t: nat)
    requires PhaseOf(es, t) == Renews
    ensures var lost := es + [Client(Renewed(t, Lost))]; LostIn(lost) && PhaseOf(lost, t) == Ended
    ensures Fired(es + [Client(Renewed(t, Lost))]) == Fired(es)
  {
    var lost := es + [Client(Renewed(t, Lost))];
    assert lost[..|lost| - 1] == es && lost[|lost| - 1] == Client(Renewed(t, Lost));
    assert Loses(es, Client(Renewed(t, Lost)), t);
  }

  predicate OfTick(e: SessionEvent, t: nat) {
    match e
    case Renewed(u, _) => u == t
    case Read(u) => u == t
    case ReadFailed(u) => u == t
    case Deliver(u) => u == t
    case _ => false
  }

  /** The self-fence. Once the renew of a tick comes back lost, then whatever follows: the session
      is superseded and not live, that tick asks for nothing, reads nothing and pushes nothing,
      and no further tick is ever started. */
  lemma LostRenewFencesTheConnection(
    db: Db, c: string, limit: nat, es: seq<Move>, t: nat, more: seq<Move>, e: SessionEvent)
    requires t in Run(World(db, Open(db, c, limit)), es).ses.ticks
    requires Run(World(db, Open(db, c, limit)), es).ses.ticks[t].Renewing?
    ensures var w := World(db, Open(db, c, limit));
      var now := Run(w, es + [Client(Renewed(t, Lost))] + more);
      && now.ses.superseded && !now.ses.live && t !in now.ses.ticks
      && now.ses.nextTick == Run(w, es).ses.nextTick
      && (e == Fire || OfTick(e, t) ==> Step(now, Client(e)) == now)
  {
    var w := World(db, Open(db, c, limit));
    var lost := es + [Client(Renewed(t, Lost))];
    RunFollows(w, es);
    assert TickAt(w, es, Run(w, es).ses.ticks, t);
    LosingEnds(es, t);
    LostForGood(lost, more);
    EndedForGood(lost, more, t);
    RunFollows(w, lost + more);
    assert TickAt(w, lost + more, Run(w, lost + more).ses.ticks, t);
  }

  /** A tick whose query or renew failed is over too, but the heartbeat goes on. */
  lemma FailedTickLeavesTheHeartbeat(db: Db, c: string, limit: nat, es: seq<Move>, t: nat, e: SessionEvent)
    requires e == Renewed(t, Unreachable) || e == ReadFailed(t)
    ensures var w := World(db, Open(db, c, limit));
      var s, now := Run(w, es).ses, Run(w, es + [Client(e)]).ses;
      && now.live == s.live && now.superseded == s.superseded && now.pushed == s.pushed && now.cursor == s.cursor
      && (PhaseOf(es, t) == (if e.ReadFailed? then Asks else Renews) ==> t !in now.ticks)
  {
    var w := World(db, Open(db, c, limit));
    RunFollows(w, es);
    assert TickAt(w, es, Run(w, es).ses.ticks, t);
    assert (es + [Client(e)])[..|es|] == es;
  }
}
