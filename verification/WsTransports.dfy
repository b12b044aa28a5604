/** The WebSocket client transport as an object, each handler proved against its step. */
module WsTransports {
  import opened Wrappers
  import opened StreamQueues
  import T = Transport

  /** The transport as an object; each handler is one step. Requests are settled in the order
      of their ids, which is the order they were registered in. */
  class WsTransport {
    var life: T.Life
    var embodying: bool
    var socketOpen: bool
    var seqNo: nat
    var superseded: bool
    var closedByCaller: bool
    var pendingOpen: bool
    var pending: set<nat>
    var streams: set<nat>
    var queues: map<nat, Queue>
    var connectOutcome: Option<T.Cause>
    var settlements: seq<T.Settlement>
    var sent: set<nat>
    ghost var seqAtClose: Option<nat>
    var notices: seq<T.CloseInfo>

    ghost function View(): T.State
      reads this
    {
      T.State(life, embodying, socketOpen, seqNo, superseded, closedByCaller, pendingOpen, pending, streams, queues,
            connectOutcome, settlements, sent, seqAtClose, notices)
    }

    constructor ()
      ensures View() == T.NEW
    {
      life, embodying, socketOpen, seqNo, superseded, closedByCaller := T.Idle, false, false, 0, false, false;
      pendingOpen, pending, streams, queues, connectOutcome := false, {}, {}, map[], None;
      settlements, sent, seqAtClose, notices := [], {}, None, [];
    }

    method Connect(embodying: bool) returns (refused: bool)
      modifies this
      ensures refused == (old(life) != T.Idle)
      ensures View() == T.Step(old(View()), T.Connect(embodying))
    {
      refused := life != T.Idle;
      if !refused {
        life, this.embodying, pendingOpen := T.Opening, embodying, true;
      }
    }

    method OnOpen()
      requires life == T.Opening || life == T.Open
      modifies this
      ensures View() == T.Step(old(View()), T.SocketOpened)
    {
      socketOpen := true;
      if !embodying {
        SettleOpen(T.Resolved("open"));
      }
    }

    method OnError()
      modifies this
      ensures View() == T.Step(old(View()), T.SocketError)
    {
      if life == T.Opening {
        SettleOpen(T.RejectedByError);
      }
    }

    method SettleOpen(outcome: T.Cause)
      modifies this
      ensures View() == T.SettleOpen(old(View()), outcome)
    {
      if !pendingOpen {
        return;
      }
      pendingOpen, connectOutcome := false, Some(outcome);
      if outcome.Resolved? {
        life := T.Open;
      }
    }

    method Send(id: nat)
      modifies this`sent
      ensures sent == if socketOpen then old(sent) + {id} else old(sent)
    {
      if socketOpen {
        sent := sent + {id};
      }
    }

    method Call() returns (id: nat)
      modifies this
      ensures id == old(seqNo) + 1 && View() == T.Step(old(View()), T.Call)
    {
      seqNo := seqNo + 1;
      id := seqNo;
      pending := pending + {id};
      Send(id);
    }

    method CallStream() returns (id: nat)
      modifies this
      ensures id == old(seqNo) + 1 && View() == T.Step(old(View()), T.CallStream)
    {
      seqNo := seqNo + 1;
      id := seqNo;
      queues := queues[id := EMPTY_QUEUE];
      streams := streams + {id};
      Send(id);
    }

    method SettleCall(id: nat, cause: T.Cause)
      modifies this
      ensures View() == T.SettleCall(old(View()), id, cause)
    {
      if id in pending {
        settlements := settlements + [T.Settlement(id, cause)];
        pending := pending - {id};
      }
    }

    method OnQueue(id: nat, e: StreamQueues.Event)
      modifies this`queues
      ensures queues == if id in streams && id in old(queues)
                        then old(queues)[id := StreamQueues.Step(old(queues)[id], e)] else old(queues)
      ensures View() == T.OnQueue(old(View()), id, e)
    {
      if id in streams && id in queues {
        queues := queues[id := StreamQueues.Step(queues[id], e)];
      }
    }

    method OnMessage(frame: T.Frame)
      modifies this
      ensures View() == T.OnMessage(old(View()), frame)
    {
      match frame
      case Unparseable =>
      case StreamFrame(id, chunk) => OnQueue(id, Push(chunk));
      case ResultFrame(id, result) =>
        OnQueue(id, End(result));
        SettleCall(id, T.Resolved(result));
      case ErrorFrame(id, error) =>
        OnQueue(id, Fail(error));
        SettleCall(id, T.RejectedByFrame(error));
      case ReadyFrame => SettleOpen(T.Resolved("ready"));
      case SupersededFrame =>
        superseded := true;
        SettleOpen(T.RejectedBySupersede);
      case OtherEventFrame =>
    }

    method RejectPending(cause: T.Cause)
      modifies this
      ensures View() == T.RejectAll(old(View()), T.Ascending(old(pending), 0, old(seqNo) + 1), cause)
    {
      ghost var s, end := View(), seqNo + 1;
      ghost var goal := T.RejectAll(s, T.Ascending(pending, 0, end), cause);
      var all := pending;
      ghost var rest := T.Ascending(all, 0, end);
      var id := 0;
      while id <= seqNo
        invariant id <= end == seqNo + 1 && View() == s
        invariant rest == T.Ascending(all, id, end) && T.RejectAll(s, rest, cause) == goal
      {
        T.AscendingNext(all, id, end);
        if id in all {
          T.RejectNext(s, rest, cause);
          SettleCall(id, cause);
          s, rest := T.SettleCall(s, id, cause), rest[1..];
        }
        id := id + 1;
      }
    }

    method FailStreams(error: string)
      requires forall id :: id in queues ==> id <= seqNo
      modifies this`queues, this`streams
      ensures View() == T.FailAll(old(View()), error)
    {
      ghost var s := View();
      T.FailNone(s, error);
      var id := 0;
      while id <= seqNo
        invariant id <= seqNo + 1 && streams == s.streams && queues == T.FailBelow(s, error, id)
      {
        T.FailNext(s, error, id);
        OnQueue(id, Fail(error));
        id := id + 1;
      }
      T.FailEvery(s, error);
      streams := {};
    }

    method MarkClosed()
      modifies this
      ensures View() == T.MarkClosed(old(View()))
    {
      var wasOpening := life == T.Opening;
      life := T.Closed;
      if wasOpening {
        SettleOpen(if superseded then T.RejectedBySupersede else T.RejectedByClose);
      }
    }

    /** The connect, the calls and the streams, in that order. */
    method Collapse()
      requires life != T.Closed && forall id :: id in queues ==> id <= seqNo
      modifies this
      ensures var s := old(View());
        View() == T.FailAll(T.RejectAll(T.MarkClosed(s), T.Ascending(s.pending, 0, s.seqNo + 1), T.CloseCause(s)),
                            T.CloseError(s))
    {
      T.MarkClosedFrame(View());
      MarkClosed();
      SettleInFlight(if superseded then T.RejectedBySupersede else T.RejectedByClose,
                     if superseded then "superseded" else "closed");
    }

    /** Everything in flight is settled, then the close listeners are told. */
    method HandleClose()
      requires forall id :: id in queues ==> id <= seqNo
      modifies this
      ensures View() == T.HandleClose(old(View()))
    {
      if life == T.Closed {
        return;
      }
      ghost var before := View();
      Collapse();
      T.CloseTail(before, T.MarkClosed(before), View());
      seqAtClose := Some(seqNo);
      notices := notices + [T.CloseInfo(superseded, closedByCaller)];
    }

    method SettleInFlight(cause: T.Cause, error: string)
      requires forall id :: id in queues ==> id <= seqNo
      modifies this
      ensures View() == T.FailAll(T.RejectAll(old(View()), T.Ascending(old(pending), 0, old(seqNo) + 1), cause), error)
    {
      T.RejectAllFrame(View(), T.Ascending(pending, 0, seqNo + 1), cause);
      RejectPending(cause);
      FailStreams(error);
    }

    method OnClose()
      requires life != T.Idle && forall id :: id in queues ==> id <= seqNo
      modifies this
      ensures View() == T.Step(old(View()), T.SocketClosed)
    {
      socketOpen := false;
      HandleClose();
    }

    method Close()
      modifies this`closedByCaller
      ensures View() == T.Step(old(View()), T.CloseByCaller)
    {
      closedByCaller := true;
    }
  }
}
