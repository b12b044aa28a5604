/** Two whole turns that use a tool, under different ceilings. The model asks for a search with no
    text; what it says once it has the result is "found it". */
module SearchTurn {
  import opened Wrappers
  import opened Usage
  import opened TurnLog
  import opened TurnProtocol
  import opened Harness
  import TurnPaths

  const CALL := ToolCall(Some("s"), "search", "{}")

  const ASKS := Script([], Some(StreamResult(ZERO_USAGE, [CALL])))

  const FINDS := Script(["found it"], Some(StreamResult(ZERO_USAGE, [])))

  /** The first call is made at position 1, any other later. */
  function World(): Environment {
    Environment(
      _ => true, _ => None, _ => Held, (k: nat) => if k <= 1 then ASKS else FINDS,
      _ => Allow(CALL), _ => ToolReply(false, false, Some("hit"), Some("Searched")), _ => true, _ => false)
  }

  const FOUND := [Assistant("", [CALL]), Tool("hit", Some("s"))]

  /** The round that runs the tool, up to the check that begins the next. */
  function Round(): seq<Effect> {
    [Lease(Held), CallStarted([], ASKS), CallEnded(ZERO_USAGE), Gated(CALL, Allow(CALL)), Dispatched(CALL),
     Lease(Held), Wrote(ToolStep, "Searched", true), Emitted(ToolStepEvent("Searched")), Lease(Held)]
  }

  function RoundPlaces(): seq<Place> {
    var begin, begun := Ctx([], "", 0, 0, 0), Ctx([], "", 1, 0, 0);
    var asked, ran := Ctx([Assistant("", [CALL])], "", 1, 0, 0), Ctx(FOUND, "", 1, 0, 0);
    [Top(begin), Checked(begin), Calling(begun, ASKS, 0), Asking(asked, [CALL], NOTHING_HELD),
     Allowed(asked, CALL, CALL, [], NOTHING_HELD), RowDue(ran, Some("Searched"), [], NOTHING_HELD),
     RowCleared(ran, "Searched", [], NOTHING_HELD), RowKept(ran, "Searched", [], NOTHING_HELD), Top(ran), Checked(ran)]
  }

  lemma RoundLinks(config: Config, path: seq<Place>, log: seq<Effect>, i: nat)
    requires config.maxToolIterations >= 1 && config.turnTokenBudget.None? && !config.hasQuota
    requires RoundPlaces() <= path && Round() <= log && i < 9
    ensures LinkedAt(World(), config, path, log, 0, i)
  {
    assert Round()[i] == log[i] && RoundPlaces()[i] == path[i] && RoundPlaces()[i + 1] == path[i + 1];
    if i < 4 {
      RoundAsks(config, i);
    } else {
      RoundRuns(config, i);
    }
  }

  lemma RoundAsks(config: Config, i: nat)
    requires config.maxToolIterations >= 1 && config.turnTokenBudget.None? && i < 4
    ensures Due(World(), config, RoundPlaces()[i], i) == Some(Round()[i])
    ensures Next(World(), config, RoundPlaces()[i], i) == RoundPlaces()[i + 1]
  {
    assert [] + [Assistant("", [CALL])] == [Assistant("", [CALL])];
    if i == 2 {
      assert Answer(Ctx([], "", 1, 0, 0), "", StreamResult(ZERO_USAGE, [CALL])) == RoundPlaces()[3];
    }
  }

  lemma RoundRuns(config: Config, i: nat)
    requires 4 <= i < 9
    ensures Due(World(), config, RoundPlaces()[i], i) == Some(Round()[i])
    ensures Next(World(), config, RoundPlaces()[i], i) == RoundPlaces()[i + 1]
  {
    assert [Assistant("", [CALL])] + [Tool("hit", Some("s"))] == FOUND;
  }

  /** With room for a second call it is made, with the result in its messages. */
  function Found(): seq<Effect> {
    Round() + [CallStarted(FOUND, FINDS), Emitted(TokenEvent("found it")), CallEnded(ZERO_USAGE), Lease(Held),
               Wrote(Reply, "found it", true), Emitted(DoneEvent("found it"))]
  }

  function FoundPlaces(): seq<Place> {
    var again, said := Ctx(FOUND, "", 2, 0, 0), Ctx(FOUND, "found it", 2, 0, 0);
    RoundPlaces() + [Calling(again, FINDS, 0), Calling(again, FINDS, 1), Spoken(said), Cleared(said),
                     Ending(Some("found it"), NOTHING_HELD), Out(Ended)]
  }

  lemma FoundPath(config: Config)
    requires config == Config(6, None, false)
    ensures IsPath(World(), config, FoundPlaces(), Found(), 0)
  {
    var env, path, log := World(), FoundPlaces(), Found();
    assert Joined(["found it"]) == "found it" by {
      assert ["found it"][..0] == [];
    }
    forall i: nat | i < |log|
      ensures LinkedAt(env, config, path, log, 0, i)
    {
      if i < 9 {
        RoundLinks(config, path, log, i);
      }
    }
  }

  /** With none left the turn ends there, with the fallback. */
  function RanOut(): seq<Effect> {
    Round() + [Wrote(Reply, PARTIAL_FALLBACK, true), Emitted(DoneEvent(PARTIAL_FALLBACK))]
  }

  function RanOutPlaces(): seq<Place> {
    RoundPlaces() + [Ending(Some(PARTIAL_FALLBACK), NOTHING_HELD), Out(Ended)]
  }

  lemma RanOutPath(config: Config)
    requires config == Config(1, None, false)
    ensures IsPath(World(), config, RanOutPlaces(), RanOut(), 0)
  {
    var path := RanOutPlaces();
    forall i: nat | i < |RanOut()|
      ensures LinkedAt(World(), config, path, RanOut(), 0, i)
    {
      if i < 9 {
        RoundLinks(config, path, RanOut(), i);
      }
    }
  }

  /** The turn along a path that ends in order. */
  method Converses(config: Config, ghost path: seq<Place>, ghost log: seq<Effect>) returns (t: Turn)
    requires IsPath(World(), config, path, log, 0) && path[0] == Start([], false, 0) && path[|path| - 1] == Out(Ended)
    ensures t.log == log + [Perceived] && TurnKept(t, config, true)
  {
    EntryIsSilent([], []);
    ghost var steps;
    t, steps := Converse(World(), config, Prep([], false, ZERO_USAGE), [], true);
    TurnPaths.PlayedIs(World(), config, t, steps, path, log, Ended);
    assert t.log[0..t.loopEnd] == t.log[..t.loopEnd] && log[0..] == log;
    assert t.log == t.log[..t.loopEnd] + t.log[t.loopEnd..];
  }

  method FindsIt() returns (t: Turn)
    ensures t.log == Found() + [Perceived]
  {
    FoundPath(Config(6, None, false));
    t := Converses(Config(6, None, false), FoundPlaces(), Found());
  }

  method RunsOut() returns (t: Turn)
    ensures t.log == RanOut() + [Perceived]
  {
    RanOutPath(Config(1, None, false));
    t := Converses(Config(1, None, false), RanOutPlaces(), RanOut());
  }
}
