/** The delivering side of one embodied WebSocket connection. Each method is one stretch
    of code between two awaits; `ticks` holds the suspended heartbeat callbacks. */
module Heartbeat {
  import opened EventLog
  import opened Delivery

  /** Max events delivered per heartbeat tick. */
  const EVENT_BATCH: nat := 200

  class EmbodiedConnection {
    const companion: string
    const start: nat
    var cursor: nat
    var ticks: map<nat, Tick>
    var nextTick: nat
    var live: bool
    var superseded: bool
    var pushed: seq<LoggedEvent>

    ghost function View(): Session
      reads this
    {
      Session(companion, EVENT_BATCH, start, cursor, ticks, nextTick, live, superseded, pushed)
    }

    /** The cursor starts at the settled horizon; then the lease is granted. */
    constructor (companion: string, log: CompanionEventLog)
      requires Valid(log.View())
      ensures View() == Open(log.View(), companion, EVENT_BATCH)
    {
      var at := log.LatestSettled(companion);
      this.companion := companion;
      start, cursor := at, at;
      ticks, nextTick := map[], 0;
      live, superseded, pushed := true, false, [];
    }

    /** `setInterval` fires: the callback calls renew and suspends. */
    method OnInterval(ghost db: Db)
      modifies this
      ensures View() == SessionStep(db, old(View()), Fire)
    {
      if live {
        ticks := ticks[nextTick := Renewing];
        nextTick := nextTick + 1;
      }
    }

    /** The renew settles. Held: ask for the rows after the cursor as it is now. Lost:
        stop the heartbeat, announce the supersession and close. Failed: try next tick. */
    method OnRenewed(t: nat, reply: Reply, ghost db: Db)
      requires t in ticks && ticks[t].Renewing?
      modifies this
      ensures View() == SessionStep(db, old(View()), Renewed(t, reply))
    {
      match reply
      case Held =>
        ticks := ticks[t := Asked(cursor)];
      case Lost =>
        ticks := ticks - {t};
        live, superseded := false, true;
      case Unreachable =>
        ticks := ticks - {t};
    }

    /** The database runs the tick's query. */
    method OnQueried(t: nat, log: CompanionEventLog)
      requires t in ticks && ticks[t].Asked? && Valid(log.View())
      modifies this
      ensures View() == SessionStep(log.View(), old(View()), Read(t))
    {
      var after := ticks[t].after;
      var batch := log.ReadRows(companion, after, EVENT_BATCH);
      ticks := ticks[t := Fetched(after, batch)];
    }

    method OnQueryFailed(t: nat, ghost db: Db)
      requires t in ticks && ticks[t].Asked?
      modifies this
      ensures View() == SessionStep(db, old(View()), ReadFailed(t))
    {
      ticks := ticks - {t};
    }

    /** The rows arrive: push each one and move the cursor with it. */
    method OnRows(t: nat, ghost db: Db)
      requires t in ticks && ticks[t].Fetched?
      modifies this
      ensures View() == SessionStep(db, old(View()), Deliver(t))
    {
      var batch := ticks[t].batch;
      ticks := ticks - {t};
      for i := 0 to |batch|
        invariant pushed == old(pushed) + batch[..i]
        invariant cursor == CursorAfter(old(cursor), batch[..i])
        invariant ticks == old(ticks) - {t} && nextTick == old(nextTick)
        invariant live == old(live) && superseded == old(superseded)
      {
        assert batch[..i + 1] == batch[..i] + [batch[i]];
        pushed := pushed + [batch[i]];
        cursor := batch[i].seqNo;
      }
      assert batch[..|batch|] == batch;
    }

    method OnSocketClosed(ghost db: Db)
      modifies this
      ensures View() == SessionStep(db, old(View()), SocketClosed)
    {
      live := false;
    }
  }
}
