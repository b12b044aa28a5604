/** The mid-turn fence composed with the embodiment claim: a turn's lease checks read the
    claim row while connections come and go. */
module Handoff {
  import opened Wrappers
  import E = Embodiment
  import H = Harness
  import P = TurnProtocol
  import T = TurnLog
  import TP = TurnPaths
  import U = Usage

  /** When each effect of the turn happens, as a position in the claim row's history: the
      turn runs after binding b was granted at step i, and effects happen in order. */
  ghost predicate Timed(es: seq<E.Event>, i: nat, log: seq<T.Effect>, at: seq<nat>) {
    && |at| == |log|
    && (forall k :: 0 <= k < |at| ==> i < at[k] <= |es|)
    && (forall k, l :: 0 <= k <= l < |at| ==> at[k] <= at[l])
  }

  /** Every lease check that could be read reports what `holds` says at its moment. */
  ghost predicate ChecksTheRow(s: E.State, es: seq<E.Event>, c: string, b: E.Binding, log: seq<T.Effect>, at: seq<nat>)
    requires |at| == |log| && forall k :: 0 <= k < |at| ==> at[k] <= |es|
  {
    forall k :: 0 <= k < |log| && log[k].Lease? && log[k].reply != T.ReadFailed ==>
      (log[k].reply == T.Lost <==> !E.Holds(E.Run(s, es[..at[k]]).table, c, b))
  }

  /** Once a binding has stopped holding, every check of it that can be read reports loss. */
  lemma ReadableChecksReportLoss(
    s: E.State, es: seq<E.Event>, i: nat, c: string, b: E.Binding, log: seq<T.Effect>, at: seq<nat>, p: nat)
    requires i < |es| && es[i].Claim? && es[i].companion == c
    requires E.Granted(E.Run(s, es[..i]), es[i]) == Some(b)
    requires !E.IdUsedFrom(es, i + 1, c, b.connectionId) || E.NoDeleteFrom(s, es, i, c)
    requires Timed(es, i, log, at) && ChecksTheRow(s, es, c, b, log, at)
    requires p < |log| && !E.Holds(E.Run(s, es[..at[p]]).table, c, b)
    ensures forall k :: p <= k < |log| && log[k].Lease? ==> log[k].reply == T.Lost || log[k].reply == T.ReadFailed
  {
    forall k | p <= k < |log| && log[k].Lease? && log[k].reply != T.ReadFailed
      ensures log[k].reply == T.Lost
    {
      if E.NoDeleteFrom(s, es, i, c) {
        E.NeverRevivedWithoutDelete(s, es, i, at[p], at[k], c, b);
      } else {
        E.NeverRevivedWithUniqueIds(s, es, i, at[p], at[k], c, b);
      }
    }
  }

  /** What a superseded turn may still write. Between the loss of the room and the row there is
      no check that could be read; and the row is covered, with no model call or tool dispatch
      in between, by a check made before the loss or by one whose read failed, which the code
      counts as still held. */
  lemma SupersededTurnStops(
    s: E.State, es: seq<E.Event>, i: nat, c: string, b: E.Binding,
    base: seq<T.Message>, log: seq<T.Effect>, at: seq<nat>, p: nat, w: nat)
    requires i < |es| && es[i].Claim? && es[i].companion == c
    requires E.Granted(E.Run(s, es[..i]), es[i]) == Some(b)
    requires !E.IdUsedFrom(es, i + 1, c, b.connectionId) || E.NoDeleteFrom(s, es, i, c)
    requires Timed(es, i, log, at) && ChecksTheRow(s, es, c, b, log, at)
    requires T.Watch(base, log).fenced && T.Watch(base, log).quiet
    requires p <= w < |log| && log[w].Wrote?
    requires !E.Holds(E.Run(s, es[..at[p]]).table, c, b)
    ensures forall k :: p <= k < w && log[k].Lease? ==> log[k].reply == T.ReadFailed
    ensures exists j :: T.CheckedAt(log, j, w) && (j < p || log[j].reply == T.ReadFailed)
  {
    ReadableChecksReportLoss(s, es, i, c, b, log, at, p);
    forall k | p <= k < w && log[k].Lease?
      ensures log[k].reply == T.ReadFailed
    {
      if log[k].reply == T.Lost {
        T.QuietMeansStandsDown(base, log, k, w);
      }
    }
    T.FencedMeansEveryRowChecked(base, log, w);
  }

  /** So the row is covered by a check made before the loss alone, unless a read failed since:
      when every check can be read, the turn stops at its next one. */
  lemma ReadableTurnStopsAtItsNextCheck(
    s: E.State, es: seq<E.Event>, i: nat, c: string, b: E.Binding,
    base: seq<T.Message>, log: seq<T.Effect>, at: seq<nat>, p: nat, w: nat)
    requires i < |es| && es[i].Claim? && es[i].companion == c
    requires E.Granted(E.Run(s, es[..i]), es[i]) == Some(b)
    requires !E.IdUsedFrom(es, i + 1, c, b.connectionId) || E.NoDeleteFrom(s, es, i, c)
    requires Timed(es, i, log, at) && ChecksTheRow(s, es, c, b, log, at)
    requires T.Watch(base, log).fenced && T.Watch(base, log).quiet
    requires p <= w < |log| && log[w].Wrote?
    requires !E.Holds(E.Run(s, es[..at[p]]).table, c, b)
    ensures (exists k :: p <= k < w && log[k].Lease?) <==> (exists k :: p <= k < w && log[k] == T.Lease(T.ReadFailed))
    ensures (forall k :: p <= k < w ==> log[k] != T.Lease(T.ReadFailed)) ==> exists j :: j < p && T.CheckedAt(log, j, w)
  {
    SupersededTurnStops(s, es, i, c, b, base, log, at, p, w);
    if k :| p <= k < w && log[k].Lease? {
      assert log[k] == T.Lease(T.ReadFailed);
    }
  }

  /** Room "c" is taken by connection 7, then by connection 8. */
  function Takeover(): seq<E.Event> {
    [E.Claim("c", 7, "n", 30), E.Claim("c", 8, "n", 30)]
  }

  lemma TakeoverFencesOut()
    ensures var s0 := E.State(map[], 0); var es := Takeover(); var b := E.Binding(7, 1);
      && E.Granted(E.Run(s0, es[..0]), es[0]) == Some(b) && !E.IdUsedFrom(es, 1, "c", 7)
      && !E.Holds(E.Run(s0, es).table, "c", b)
  {
    var s0, es := E.State(map[], 0), Takeover();
    E.RunNext(s0, es, 0);
    E.RunNext(s0, es, 1);
    assert es[..0] == [] && es[..2] == es;
  }

  /** Every check fails to be read; everything else goes well. */
  function NoLeaseAnswers(): P.Environment {
    P.Environment(
      _ => true, _ => None, _ => T.ReadFailed, _ => Hello(), _ => T.GateThrows,
      _ => P.ToolReply(false, false, None, None), _ => true, _ => false)
  }

  function Hello(): U.Script {
    U.Script(["hello"], Some(U.StreamResult(U.ZERO_USAGE, [])))
  }

  /** What the loop does then. */
  function UnreadableTurn(): seq<T.Effect> {
    [T.Lease(T.ReadFailed), T.CallStarted([], Hello()), T.Emitted(T.TokenEvent("hello")), T.CallEnded(U.ZERO_USAGE),
     T.Lease(T.ReadFailed), T.Wrote(T.Reply, "hello", true), T.Emitted(T.DoneEvent("hello"))]
  }

  function UnreadablePlaces(): seq<P.Place> {
    var begin, begun, said := P.Ctx([], "", 0, 0, 0), P.Ctx([], "", 1, 0, 0), P.Ctx([], "hello", 1, 0, 0);
    [P.Top(begin), P.Checked(begin), P.Calling(begun, Hello(), 0), P.Calling(begun, Hello(), 1), P.Spoken(said),
     P.Cleared(said), P.Ending(Some("hello"), P.NOTHING_HELD), P.Out(P.Ended)]
  }

  lemma HelloIsSaid(config: P.Config, i: nat)
    requires config == P.Config(8, None, true) && i < 4
    ensures P.Due(NoLeaseAnswers(), config, UnreadablePlaces()[i], i) == Some(UnreadableTurn()[i])
    ensures P.Next(NoLeaseAnswers(), config, UnreadablePlaces()[i], i) == UnreadablePlaces()[i + 1]
  {
    assert U.Joined(["hello"]) == "hello" by {
      assert ["hello"][..0] == [];
    }
  }

  lemma HelloIsKept(config: P.Config, i: nat)
    requires config == P.Config(8, None, true) && 4 <= i < 7
    ensures P.Due(NoLeaseAnswers(), config, UnreadablePlaces()[i], i) == Some(UnreadableTurn()[i])
    ensures P.Next(NoLeaseAnswers(), config, UnreadablePlaces()[i], i) == UnreadablePlaces()[i + 1]
  {
  }

  lemma UnreadablePath(config: P.Config)
    requires config == P.Config(8, None, true)
    ensures P.IsPath(NoLeaseAnswers(), config, UnreadablePlaces(), UnreadableTurn(), 0)
  {
    forall i: nat | i < 7
      ensures P.LinkedAt(NoLeaseAnswers(), config, UnreadablePlaces(), UnreadableTurn(), 0, i)
    {
      if i < 4 {
        HelloIsSaid(config, i);
      } else {
        HelloIsKept(config, i);
      }
    }
  }

  /** The failed read is a real exception. The loop itself, in a room that was lost before its
      first effect and whose checks cannot be read, calls the model and writes its reply, and
      everything the harness promises holds of that turn. */
  method FailedReadLetsASupersededTurnWrite() returns (t: H.Turn)
    ensures var s0 := E.State(map[], 0); var es := Takeover(); var b := E.Binding(7, 1);
      var at := seq(|t.log|, _ => 2);
      && H.TurnKept(t, P.Config(8, None, true), true)
      && E.Granted(E.Run(s0, es[..0]), es[0]) == Some(b) && !E.IdUsedFrom(es, 1, "c", 7)
      && Timed(es, 0, t.log, at) && ChecksTheRow(s0, es, "c", b, t.log, at)
      && (forall k :: 0 <= k < |t.log| ==> !E.Holds(E.Run(s0, es[..at[k]]).table, "c", b))
    ensures t.log == UnreadableTurn() + [T.Perceived] && t.exit == P.Ended
  {
    var config := P.Config(8, None, true);
    H.EntryIsSilent([], []);
    ghost var steps;
    t, steps := H.Converse(NoLeaseAnswers(), config, P.Prep([], false, U.ZERO_USAGE), [], true);
    UnreadablePath(config);
    TP.PlayedIs(NoLeaseAnswers(), config, t, steps, UnreadablePlaces(), UnreadableTurn(), P.Ended);
    assert t.log[0..t.loopEnd] == t.log[..t.loopEnd] && UnreadableTurn()[0..] == UnreadableTurn();
    assert t.log == t.log[..t.loopEnd] + t.log[t.loopEnd..];
    TakeoverFencesOut();
    assert Takeover()[..2] == Takeover();
  }
}
