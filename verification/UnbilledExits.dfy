/** The four exits on which the billing law fails, each reached by a turn whose log is given in
    full: a wallet is there and tokens were used, and nothing is debited. */
module UnbilledExits {
  import opened Wrappers
  import opened Usage
  import opened TurnLog
  import opened TurnProtocol
  import opened Harness
  import TurnFacts
  import TurnPaths

  /** The turn's loop did exactly this, owes what it used and pays nothing. */
  ghost predicate LeftOwing(t: Turn, log: seq<Effect>, exit: Exit, owed: int) {
    && t.loopEnd <= |t.log| && t.log[..t.loopEnd] == log && t.exit == exit && Unbilled(Last(log), exit)
    && WITH_WALLET.hasQuota && t.retrieval + TurnFacts.Metered(t.log) == owed > 0
    && TurnFacts.Debits(t.log) == []
  }

  function Last(log: seq<Effect>): Option<Effect> {
    if log == [] then None else Some(log[|log| - 1])
  }

  const WITH_WALLET := Config(6, None, true)

  const RETRIEVAL := TokenUsage(10, 0, 10)

  lemma LastIsObserved(base: seq<Message>, log: seq<Effect>)
    ensures Watch(base, log).last == Last(log)
  {
    if log != [] {
      var before, e := Watch(base, log[..|log| - 1]), log[|log| - 1];
      assert Observe(base, before, e).last == Some(e);
    }
  }

  /** A turn that left there has no debit, whatever it owes. */
  lemma LeavingThereIsUnbilled(t: Turn, config: Config, perceives: bool)
    requires TurnKept(t, config, perceives) && Unbilled(Last(t.log[..t.loopEnd]), t.exit)
    ensures TurnFacts.Debits(t.log) == []
  {
    LastIsObserved(t.base, t.log[..t.loopEnd]);
    TurnFacts.TurnDebitsOnce(t, config, perceives);
  }

  /** The only tokens of a log are those of its i-th effect. */
  lemma {:induction false} OneResolution(log: seq<Effect>, i: nat)
    requires i < |log| && forall n :: 0 <= n < |log| && n != i ==> TurnFacts.TokensOf(log[n]) == 0
    ensures TurnFacts.Metered(log) == TurnFacts.TokensOf(log[i])
  {
    if i > 0 {
      OneResolution(log[1..], i - 1);
    } else {
      NoResolution(log[1..]);
    }
  }

  lemma {:induction false} NoResolution(log: seq<Effect>)
    requires forall n :: 0 <= n < |log| ==> TurnFacts.TokensOf(log[n]) == 0
    ensures TurnFacts.Metered(log) == 0
  {
    if log != [] {
      NoResolution(log[1..]);
    }
  }

  /** A room that is kept and a gate that holds every action; the model says one thing. */
  function World(chunks: seq<string>, toolCalls: seq<ToolCall>, writes: bool, leaves: bool): Environment {
    Environment(
      _ => true, _ => None, _ => Held, _ => Says(chunks, toolCalls),
      _ => Block(Some(ACTION), "held"),
      _ => ToolReply(false, false, None, None),
      _ => writes, _ => leaves)
  }

  function Says(chunks: seq<string>, toolCalls: seq<ToolCall>): Script {
    Script(chunks, Some(StreamResult(SPENT, toolCalls)))
  }

  const SPENT := TokenUsage(3, 2, 5)

  const ACTION := Proposal("p", "book it")

  const CALL := ToolCall(Some("c"), "book", "{}")

  const BEGIN := Ctx([], "", 0, 0, 10)

  lemma HelloIsJoined()
    ensures Joined(["hello"]) == "hello" && Joined([]) == "" && Blank("") && !Blank("hello")
  {
    assert ["hello"][..0] == [];
    assert !IsSpace("hello"[0]);
  }

  /** Runs a turn in a world along a path that ends unbilled. */
  method Leave(env: Environment, citations: bool, ghost path: seq<Place>, ghost log: seq<Effect>, ghost exit: Exit)
    returns (t: Turn)
    requires IsPath(env, WITH_WALLET, path, log, 0) && path[0] == Start([], citations, 10)
    requires path[|path| - 1] == Out(exit) && Unbilled(Last(log), exit)
    ensures t.loopEnd <= |t.log| && t.log[..t.loopEnd] == log && t.exit == exit && t.retrieval == 10
    ensures t.log == log + Closing(exit, true) && TurnFacts.Debits(t.log) == []
  {
    EntryIsSilent([], []);
    ghost var steps;
    t, steps := Converse(env, WITH_WALLET, Prep([], citations, RETRIEVAL), [], true);
    TurnPaths.PlayedIs(env, WITH_WALLET, t, steps, path, log, exit);
    assert t.log[0..t.loopEnd] == t.log[..t.loopEnd] && log[0..] == log;
    assert t.log == t.log[..t.loopEnd] + t.log[t.loopEnd..];
    LeavingThereIsUnbilled(t, WITH_WALLET, true);
  }

  function CitationsOnly(): seq<Effect> {
    [Emitted(CitationsEvent)]
  }

  /** Closed at the citations: retrieval was paid for by nobody. */
  method LeaveAtTheCitations() returns (t: Turn)
    ensures LeftOwing(t, CitationsOnly(), Abandoned, 10)
  {
    var env := World([], [], true, true);
    ghost var path := [Sources(BEGIN), Out(Abandoned)];
    assert LinkedAt(env, WITH_WALLET, path, CitationsOnly(), 0, 0);
    t := Leave(env, true, path, CitationsOnly(), Abandoned);
    NoResolution(t.log);
  }

  function ProposalThenGone(): seq<Effect> {
    [Lease(Held), CallStarted([], Says([], [CALL])), CallEnded(SPENT), Gated(CALL, Block(Some(ACTION), "held")),
     Lease(Held), Wrote(ProposalRow, "book it", true), Emitted(ProposalEvent(ACTION))]
  }

  /** Where a turn stands when its only call was held: asked with this text, owing 15. */
  function Asked(text: string): Ctx {
    Ctx([Assistant(text, [CALL])], text, 1, 5, 10)
  }

  const HELD := Hold(true, [ACTION], "")

  lemma HeldAtOnce(env: Environment, text: string, k: nat)
    requires env.gate(k) == Block(Some(ACTION), "held")
    ensures Next(env, WITH_WALLET, Asking(Asked(text), [CALL], NOTHING_HELD), k) == Blocked(Asked(text), HELD)
  {
    assert NOTHING_HELD.held + [ACTION] == [ACTION];
  }

  lemma AskedAfter(env: Environment, chunks: seq<string>, text: string, k: nat)
    requires text == Joined(chunks)
    ensures Next(env, WITH_WALLET, Calling(BEGIN.(calls := 1), Says(chunks, [CALL]), |chunks|), k)
         == Asking(Asked(text), [CALL], NOTHING_HELD)
  {
    assert [] + [Assistant(text, [CALL])] == [Assistant(text, [CALL])];
    assert Answer(BEGIN.(calls := 1), text, StreamResult(SPENT, [CALL])) == Asking(Asked(text), [CALL], NOTHING_HELD);
  }

  function ProposalPlaces(): seq<Place> {
    [
      Top(BEGIN), Checked(BEGIN), Calling(BEGIN.(calls := 1), Says([], [CALL]), 0),
      Asking(Asked(""), [CALL], NOTHING_HELD), Blocked(Asked(""), HELD), Surfacing(15, [ACTION], None, None, HELD),
      Tried(15, [ACTION], None, Some("book it"), HELD), Out(Abandoned)]
  }

  lemma ProposalIsAsked(env: Environment, i: nat)
    requires env == World([], [CALL], true, true) && i < 4
    ensures Due(env, WITH_WALLET, ProposalPlaces()[i], i) == Some(ProposalThenGone()[i])
    ensures Next(env, WITH_WALLET, ProposalPlaces()[i], i) == ProposalPlaces()[i + 1]
  {
    HelloIsJoined();
    AskedAfter(env, [], "", 2);
    HeldAtOnce(env, "", 3);
  }

  lemma ProposalIsHeld(env: Environment, i: nat)
    requires env == World([], [CALL], true, true) && 4 <= i < 7
    ensures Due(env, WITH_WALLET, ProposalPlaces()[i], i) == Some(ProposalThenGone()[i])
    ensures Next(env, WITH_WALLET, ProposalPlaces()[i], i) == ProposalPlaces()[i + 1]
  {
    HelloIsJoined();
  }

  lemma ProposalPath(env: Environment, path: seq<Place>)
    requires env == World([], [CALL], true, true)
    requires path == ProposalPlaces()
    ensures IsPath(env, WITH_WALLET, path, ProposalThenGone(), 0)
  {
    forall i: nat | i < 7
      ensures LinkedAt(env, WITH_WALLET, path, ProposalThenGone(), 0, i)
    {
      if i < 4 {
        ProposalIsAsked(env, i);
      } else {
        ProposalIsHeld(env, i);
      }
    }
  }

  /** Closed at a proposal: retrieval and a completed model call. */
  method LeaveAtAProposal() returns (t: Turn)
    ensures LeftOwing(t, ProposalThenGone(), Abandoned, 15)
  {
    var env := World([], [CALL], true, true);
    ghost var path := ProposalPlaces();
    ProposalPath(env, path);
    t := Leave(env, false, path, ProposalThenGone(), Abandoned);
    OneResolution(t.log, 2);
  }

  function ReplyThrows(): seq<Effect> {
    [Lease(Held), CallStarted([], Says(["hello"], [])), Emitted(TokenEvent("hello")), CallEnded(SPENT),
     Lease(Held), Wrote(Reply, "hello", false)]
  }

  function ReplyPlaces(): seq<Place> {
    [
      Top(BEGIN), Checked(BEGIN), Calling(BEGIN.(calls := 1), Says(["hello"], []), 0),
      Calling(BEGIN.(calls := 1), Says(["hello"], []), 1), Spoken(Ctx([], "hello", 1, 5, 10)),
      Cleared(Ctx([], "hello", 1, 5, 10)), Out(Threw)]
  }

  lemma ReplyIsDue(env: Environment, i: nat)
    requires env == World(["hello"], [], false, false) && i < 6
    ensures Due(env, WITH_WALLET, ReplyPlaces()[i], i) == Some(ReplyThrows()[i])
    ensures Next(env, WITH_WALLET, ReplyPlaces()[i], i) == ReplyPlaces()[i + 1]
  {
    HelloIsJoined();
  }

  lemma ReplyPath(env: Environment, path: seq<Place>)
    requires env == World(["hello"], [], false, false)
    requires path == ReplyPlaces()
    ensures IsPath(env, WITH_WALLET, path, ReplyThrows(), 0)
  {
    forall i: nat | i < 6
      ensures LinkedAt(env, WITH_WALLET, path, ReplyThrows(), 0, i)
    {
      ReplyIsDue(env, i);
    }
  }

  /** The append of the reply throws. */
  method ReplyIsNotPersisted() returns (t: Turn)
    ensures LeftOwing(t, ReplyThrows(), Threw, 15)
  {
    var env := World(["hello"], [], false, false);
    ghost var path := ReplyPlaces();
    ReplyPath(env, path);
    t := Leave(env, false, path, ReplyThrows(), Threw);
    OneResolution(t.log, 3);
  }

  function PreambleThrows(): seq<Effect> {
    [Lease(Held), CallStarted([], Says(["hello"], [CALL])), Emitted(TokenEvent("hello")), CallEnded(SPENT),
     Gated(CALL, Block(Some(ACTION), "held")), Lease(Held), Wrote(Preamble, "hello", false)]
  }

  function PreamblePlaces(): seq<Place> {
    [
      Top(BEGIN), Checked(BEGIN), Calling(BEGIN.(calls := 1), Says(["hello"], [CALL]), 0),
      Calling(BEGIN.(calls := 1), Says(["hello"], [CALL]), 1), Asking(Asked("hello"), [CALL], NOTHING_HELD),
      Blocked(Asked("hello"), HELD), Holding("hello", 15, HELD), Out(Threw)]
  }

  lemma PreambleIsSaid(env: Environment, i: nat)
    requires env == World(["hello"], [CALL], false, false) && i < 4
    ensures Due(env, WITH_WALLET, PreamblePlaces()[i], i) == Some(PreambleThrows()[i])
    ensures Next(env, WITH_WALLET, PreamblePlaces()[i], i) == PreamblePlaces()[i + 1]
  {
    HelloIsJoined();
    AskedAfter(env, ["hello"], "hello", 3);
  }

  lemma PreambleIsHeld(env: Environment, i: nat)
    requires env == World(["hello"], [CALL], false, false) && 4 <= i < 7
    ensures Due(env, WITH_WALLET, PreamblePlaces()[i], i) == Some(PreambleThrows()[i])
    ensures Next(env, WITH_WALLET, PreamblePlaces()[i], i) == PreamblePlaces()[i + 1]
  {
    HelloIsJoined();
    HeldAtOnce(env, "hello", 4);
  }

  lemma PreamblePath(env: Environment, path: seq<Place>)
    requires env == World(["hello"], [CALL], false, false)
    requires path == PreamblePlaces()
    ensures IsPath(env, WITH_WALLET, path, PreambleThrows(), 0)
  {
    forall i: nat | i < 7
      ensures LinkedAt(env, WITH_WALLET, path, PreambleThrows(), 0, i)
    {
      if i < 4 {
        PreambleIsSaid(env, i);
      } else {
        PreambleIsHeld(env, i);
      }
    }
  }

  /** The append of the pre-amble throws. */
  method PreambleIsNotPersisted() returns (t: Turn)
    ensures LeftOwing(t, PreambleThrows(), Threw, 15)
  {
    var env := World(["hello"], [CALL], false, false);
    ghost var path := PreamblePlaces();
    PreamblePath(env, path);
    t := Leave(env, false, path, PreambleThrows(), Threw);
    OneResolution(t.log, 3);
  }
}
