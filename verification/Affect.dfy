/** Post-turn affect reads. Per companion, each read loads the stored mood, senses the new
    one, stores it and hands the change to the will. The reads are chained, so that one
    read's load-sense-store window never overlaps another's. */
module Affect {
  import opened Wrappers
  import opened SerialChain

  /** Where a running read is suspended. */
  datatype Stage =
    | Queued
    | Loading
    | Sensing(prior: Option<real>)
    | Storing(prior: Option<real>, reading: real)
    | Stored(prior: Option<real>, reading: real)
    | Reinforcing
    | Over

  /** One companion: the chain, where each read is, the affect row, and the deltas handed to
      `reinforce` so far. `base` is the valence the deltas are measured from; `lost` sums the
      changes of rows that were stored although their upsert's promise was rejected. */
  datatype State = State(
    chain: Chain,
    stages: seq<Stage>,
    row: Option<real>,
    deltas: seq<real>,
    base: Option<real>,
    lost: real)

  datatype Event =
    | Launch
    | Begin(read: nat)
    | Loaded(read: nat)
    | Sensed(read: nat, reading: Option<real>)
    | Upserted(read: nat)
    | HandOver(read: nat)
    | Reinforced(read: nat)
    | Failed(read: nat)
    | Forget(read: nat)

  function Start(row: Option<real>): State {
    State(EMPTY_CHAIN, [], row, [], row, 0.0)
  }

  predicate Active(s: State, k: nat) {
    k < |s.stages| == |s.chain.links| && s.chain.links[k].phase == Running
  }

  function Settle(s: State, k: nat): State
    requires k < |s.stages| == |s.chain.links|
  {
    s.(chain := SetPhase(s.chain, k, Settled), stages := s.stages[k := Over])
  }

  /** No prior read means no baseline: nothing to learn from. */
  function Delta(prior: Option<real>, reading: real): real {
    reading - (if prior.Some? then prior.value else reading)
  }

  /** The row has the reading, and the will never hears of it. */
  function Lose(s: State, prior: Option<real>, reading: real): State {
    s.(lost := s.lost + Delta(prior, reading))
  }

  function Step(s: State, e: Event): State {
    match e
    case Launch =>
      s.(chain := SerialChain.Launch(s.chain), stages := s.stages + [Queued])
    case Begin(k) =>
      if k < |s.stages| == |s.chain.links| && Ready(s.chain, k)
      then s.(chain := SetPhase(s.chain, k, Running), stages := s.stages[k := Loading]) else s
    case Loaded(k) =>
      if Active(s, k) && s.stages[k].Loading? then s.(stages := s.stages[k := Sensing(s.row)]) else s
    case Sensed(k, reading) =>
      if !(Active(s, k) && s.stages[k].Sensing?) then s
      else if reading.None? then Settle(s, k)
      else s.(stages := s.stages[k := Storing(s.stages[k].prior, reading.value)])
    case Upserted(k) =>
      if Active(s, k) && s.stages[k].Storing? then
        var reading := s.stages[k].reading;
        s.(stages := s.stages[k := Stored(s.stages[k].prior, reading)], row := Some(reading),
        base := if s.base.None? then Some(reading) else s.base)
      else s
    case HandOver(k) =>
      if Active(s, k) && s.stages[k].Stored? then
        s.(stages := s.stages[k := Reinforcing],
        deltas := s.deltas + [Delta(s.stages[k].prior, s.stages[k].reading)])
      else s
    case Reinforced(k) =>
      if Active(s, k) && s.stages[k].Reinforcing? then Settle(s, k) else s
    case Failed(k) =>
      if !Active(s, k) || s.stages[k].Queued? || s.stages[k].Over? then s
      else Settle(if s.stages[k].Stored? then Lose(s, s.stages[k].prior, s.stages[k].reading) else s, k)
    case Forget(k) =>
      s.(chain := Clear(s.chain, k))
  }

  function Run(s: State, es: seq<Event>): State {
    if es == [] then s else Step(Run(s, es[..|es| - 1]), es[|es| - 1])
  }

  function Sum(ds: seq<real>): real {
    if ds == [] then 0.0 else Sum(ds[..|ds| - 1]) + ds[|ds| - 1]
  }

  lemma SumSnoc(ds: seq<real>, d: real)
    ensures Sum(ds + [d]) == Sum(ds) + d
  {
    assert (ds + [d])[..|ds|] == ds;
  }

  /** What the running read, if any, will still hand over for the row it has stored. */
  ghost function Pending(s: State): real {
    if exists k :: 0 <= k < |s.stages| && s.stages[k].Stored? then
      var k :| 0 <= k < |s.stages| && s.stages[k].Stored?;
      Delta(s.stages[k].prior, s.stages[k].reading)
    else 0.0
  }

  ghost predicate StageOk(s: State, k: nat)
    requires k < |s.stages| == |s.chain.links|
  {
    match s.chain.links[k].phase
    case Waiting => s.stages[k] == Queued
    case Settled => s.stages[k] == Over
    case Running =>
      (match s.stages[k]
       case Queued => false
       case Over => false
       case Sensing(prior) => prior == s.row
       case Storing(prior, _) => prior == s.row
       case Stored(_, reading) => s.row == Some(reading)
       case _ => true)
  }

  ghost predicate Inv(s: State) {
    && |s.stages| == |s.chain.links|
    && SerialChain.Inv(s.chain)
    && (forall k :: 0 <= k < |s.stages| ==> StageOk(s, k))
    && (s.row.None? <==> s.base.None?)
    && Sum(s.deltas) + Pending(s) + s.lost == (if s.row.Some? then s.row.value - s.base.value else 0.0)
  }

  lemma PendingIs(s: State, k: nat)
    requires |s.stages| == |s.chain.links| && SerialChain.Inv(s.chain) && Active(s, k)
    requires forall j :: 0 <= j < |s.stages| ==> StageOk(s, j)
    ensures Pending(s) == if s.stages[k].Stored? then Delta(s.stages[k].prior, s.stages[k].reading) else 0.0
  {
    OneAtATimeInOrder(s.chain, k);
    forall j | 0 <= j < |s.stages| && j != k
      ensures !s.stages[j].Stored?
    {
      assert StageOk(s, j);
      assert j < k ==> s.chain.links[j].phase == Settled;
    }
  }

  lemma NothingPending(s: State)
    requires |s.stages| == |s.chain.links|
    requires forall j :: 0 <= j < |s.stages| ==> StageOk(s, j)
    requires forall j :: 0 <= j < |s.stages| ==> !s.stages[j].Stored?
    ensures Pending(s) == 0.0
  {
  }

  /** A read in progress moves on within its own turn. */
  lemma MoveKeepsInv(
    s: State, k: nat, stage: Stage, row: Option<real>, base: Option<real>, deltas: seq<real>, lost: real)
    requires Inv(s) && Active(s, k)
    requires var s' := s.(stages := s.stages[k := stage], row := row, base := base, deltas := deltas, lost := lost);
      && StageOk(s', k)
      && (row.None? <==> base.None?)
      && Sum(deltas) + (if stage.Stored? then Delta(stage.prior, stage.reading) else 0.0) + lost
         == (if row.Some? then row.value - base.value else 0.0)
    ensures Inv(s.(stages := s.stages[k := stage], row := row, base := base, deltas := deltas, lost := lost))
  {
    var s' := s.(stages := s.stages[k := stage], row := row, base := base, deltas := deltas, lost := lost);
    OneAtATimeInOrder(s.chain, k);
    forall j | 0 <= j < |s'.stages|
      ensures StageOk(s', j)
    {
      assert StageOk(s, j);
    }
    PendingIs(s', k);
  }

  lemma SettleKeepsInv(s: State, k: nat)
    requires Inv(s) && Active(s, k) && !s.stages[k].Stored?
    ensures Inv(Settle(s, k))
  {
    var s' := Settle(s, k);
    AdvanceKeepsInv(s.chain, k, Settled);
    OneAtATimeInOrder(s.chain, k);
    PendingIs(s, k);
    forall j | 0 <= j < |s'.stages|
      ensures StageOk(s', j) && !s'.stages[j].Stored?
    {
      assert StageOk(s, j);
    }
    NothingPending(s');
  }

  lemma FailedKeepsInv(s: State, k: nat)
    requires Inv(s) && Active(s, k)
    ensures Inv(Step(s, Failed(k)))
  {
    assert StageOk(s, k);
    if s.stages[k].Stored? {
      var lost := s.lost + Delta(s.stages[k].prior, s.stages[k].reading);
      PendingIs(s, k);
      MoveKeepsInv(s, k, Reinforcing, s.row, s.base, s.deltas, lost);
      var moved := s.(stages := s.stages[k := Reinforcing], lost := lost);
      SettleKeepsInv(moved, k);
      assert Settle(moved, k) == Step(s, Failed(k));
    } else {
      SettleKeepsInv(s, k);
    }
  }

  lemma BeginKeepsInv(s: State, k: nat)
    requires Inv(s) && k < |s.stages| && Ready(s.chain, k)
    ensures Inv(Step(s, Begin(k)))
  {
    var s' := Step(s, Begin(k));
    AdvanceKeepsInv(s.chain, k, Running);
    OneAtATimeInOrder(s'.chain, k);
    forall j | 0 <= j < |s'.stages|
      ensures StageOk(s', j) && !s'.stages[j].Stored?
    {
      assert StageOk(s, j);
    }
    NothingPending(s');
    assert forall j :: 0 <= j < |s.stages| ==> s.stages[j] == s'.stages[j] || (j == k && s.stages[j] == Queued) by {
      assert StageOk(s, k);
    }
    NothingPending(s);
  }

  lemma LaunchKeepsAll(s: State)
    requires Inv(s)
    ensures Inv(Step(s, Launch))
  {
    var s' := Step(s, Launch);
    LaunchKeepsInv(s.chain);
    forall j | 0 <= j < |s'.stages|
      ensures StageOk(s', j)
    {
      assert j < |s.stages| ==> StageOk(s, j);
    }
    SamePending(s, s');
  }

  lemma SamePending(s: State, s': State)
    requires Inv(s)
    requires |s'.stages| >= |s.stages| && s'.stages[..|s.stages|] == s.stages
    requires forall j :: |s.stages| <= j < |s'.stages| ==> !s'.stages[j].Stored?
    ensures Pending(s') == Pending(s)
  {
    if exists k :: 0 <= k < |s.stages| && s.stages[k].Stored? {
      var k :| 0 <= k < |s.stages| && s.stages[k].Stored?;
      assert s'.stages[k] == s.stages[k];
      forall j | 0 <= j < |s'.stages| && s'.stages[j].Stored?
        ensures j == k
      {
        assert s.stages[j] == s'.stages[j];
        assert StageOk(s, j) && StageOk(s, k);
        OneAtATimeInOrder(s.chain, k);
      }
    } else {
      forall j | 0 <= j < |s'.stages|
        ensures !s'.stages[j].Stored?
      {
        assert j < |s.stages| ==> s'.stages[j] == s.stages[j];
      }
    }
  }

  lemma StepKeepsInv(s: State, e: Event)
    requires Inv(s)
    ensures Inv(Step(s, e))
  {
    if Step(s, e) != s {
      match e
      case Launch => LaunchKeepsAll(s);
      case Begin(k) => BeginKeepsInv(s, k);
      case Loaded(k) =>
        PendingIs(s, k);
        MoveKeepsInv(s, k, Sensing(s.row), s.row, s.base, s.deltas, s.lost);
      case Sensed(k, reading) =>
        PendingIs(s, k);
        assert StageOk(s, k);
        if reading.None? {
          SettleKeepsInv(s, k);
        } else {
          MoveKeepsInv(s, k, Storing(s.stages[k].prior, reading.value), s.row, s.base, s.deltas, s.lost);
        }
      case Upserted(k) =>
        PendingIs(s, k);
        assert StageOk(s, k);
        var reading := s.stages[k].reading;
        MoveKeepsInv(s, k, Stored(s.stages[k].prior, reading), Some(reading),
                     if s.base.None? then Some(reading) else s.base, s.deltas, s.lost);
      case HandOver(k) =>
        PendingIs(s, k);
        var d := Delta(s.stages[k].prior, s.stages[k].reading);
        SumSnoc(s.deltas, d);
        MoveKeepsInv(s, k, Reinforcing, s.row, s.base, s.deltas + [d], s.lost);
      case Reinforced(k) => SettleKeepsInv(s, k);
      case Failed(k) => FailedKeepsInv(s, k);
      case Forget(k) =>
        ClearKeepsInv(s.chain, k);
        SamePending(s, Step(s, e));
        forall j | 0 <= j < |s.stages|
          ensures StageOk(Step(s, e), j)
        {
          assert StageOk(s, j);
        }
    }
  }

  lemma {:induction false} RunKeepsInv(row: Option<real>, es: seq<Event>)
    ensures Inv(Run(Start(row), es))
  {
    if es != [] {
      RunKeepsInv(row, es[..|es| - 1]);
      StepKeepsInv(Run(Start(row), es[..|es| - 1]), es[|es| - 1]);
    }
  }

  /** Affect reads of one companion run one at a time, in the order they were launched. */
  lemma ReadsRunInLaunchOrder(row: Option<real>, es: seq<Event>, k: nat)
    requires Active(Run(Start(row), es), k)
    ensures var s := Run(Start(row), es);
      && (forall j :: 0 <= j < k ==> s.stages[j] == Over)
      && (forall j :: k < j < |s.stages| ==> s.stages[j] == Queued)
  {
    RunKeepsInv(row, es);
    var s := Run(Start(row), es);
    OneAtATimeInOrder(s.chain, k);
    forall j | 0 <= j < |s.stages| && j != k
      ensures s.stages[j] == if j < k then Over else Queued
    {
      assert StageOk(s, j);
    }
  }

  function RowValue(s: State): real {
    if s.row.Some? then s.row.value else 0.0
  }

  /** The valences the row has held, oldest first. */
  function Held(row: Option<real>, es: seq<Event>): seq<real> {
    if es == [] then (if row.Some? then [row.value] else [])
    else
      var before := es[..|es| - 1];
      var s, s' := Run(Start(row), before), Run(Start(row), es);
      Held(row, before) + (if es[|es| - 1].Upserted? && s'.stages != s.stages then [RowValue(s')] else [])
  }

  lemma OnlyUpsertsMoveTheRow(s: State, e: Event)
    ensures var s' := Step(s, e);
      if e.Upserted? && s'.stages != s.stages
      then s'.row == Some(RowValue(s')) && s'.base == (if s.base.None? then s'.row else s.base)
      else s'.row == s.row && s'.base == s.base
  {
    if e.Upserted? && Active(s, e.read) && s.stages[e.read].Storing? {
      assert Step(s, e).stages[e.read].Stored?;
    }
  }

  lemma {:induction false} RowAndBaseAreHeld(row: Option<real>, es: seq<Event>)
    ensures var s := Run(Start(row), es); var vs := Held(row, es);
      && (s.row.None? <==> vs == []) && (s.row.None? <==> s.base.None?)
      && (vs != [] ==> s.row == Some(vs[|vs| - 1]) && s.base == Some(vs[0]))
  {
    if es != [] {
      RowAndBaseAreHeld(row, es[..|es| - 1]);
      OnlyUpsertsMoveTheRow(Run(Start(row), es[..|es| - 1]), es[|es| - 1]);
    }
  }

  /** The deltas telescope. Whichever reads fail or are declined, and however the turns
      interleave, what has been handed to `reinforce`, with what the running read has stored
      and not yet handed over and what rejected upserts stored all the same, sums to the last
      stored valence minus the first. */
  lemma DeltasTelescope(row: Option<real>, es: seq<Event>)
    ensures var s := Run(Start(row), es); var vs := Held(row, es);
      Sum(s.deltas) + Pending(s) + LostIn(row, es) == if vs == [] then 0.0 else vs[|vs| - 1] - vs[0]
  {
    RunKeepsInv(row, es);
    RowAndBaseAreHeld(row, es);
    LostIsRejected(row, es);
  }

  /** What one event loses: the delta of a rejection that comes after its row was written. */
  function LostBy(s: State, e: Event): real {
    if e.Failed? && Active(s, e.read) && s.stages[e.read].Stored?
    then Delta(s.stages[e.read].prior, s.stages[e.read].reading) else 0.0
  }

  /** The deltas of all rejections of a run that came after their row was written. */
  function LostIn(row: Option<real>, es: seq<Event>): real {
    if es == [] then 0.0
    else LostIn(row, es[..|es| - 1]) + LostBy(Run(Start(row), es[..|es| - 1]), es[|es| - 1])
  }

  lemma LostOnlyAfterTheWrite(s: State, e: Event)
    ensures Step(s, e).lost == s.lost + LostBy(s, e)
  {
  }

  lemma {:induction false} LostIsRejected(row: Option<real>, es: seq<Event>)
    ensures Run(Start(row), es).lost == LostIn(row, es)
  {
    if es != [] {
      LostIsRejected(row, es[..|es| - 1]);
      LostOnlyAfterTheWrite(Run(Start(row), es[..|es| - 1]), es[|es| - 1]);
    }
  }

  /** Once no read stands between its upsert and its hand-over, what the will has been told is the
      whole change exactly when the rejections after a write cancel: with none, always. */
  lemma QuietDeltasAreTheWholeChangeIff(row: Option<real>, es: seq<Event>)
    requires forall k :: 0 <= k < |Run(Start(row), es).stages| ==> !Run(Start(row), es).stages[k].Stored?
    ensures var s := Run(Start(row), es); var vs := Held(row, es);
      Sum(s.deltas) == (if vs == [] then 0.0 else vs[|vs| - 1] - vs[0]) <==> LostIn(row, es) == 0.0
  {
    DeltasTelescope(row, es);
    RunKeepsInv(row, es);
    NothingPending(Run(Start(row), es));
  }

  function RejectedUpsert(): seq<Event> {
    [Launch, Begin(0), Loaded(0), Sensed(0, Some(1.0)), Upserted(0), Failed(0)]
  }

  lemma RunNext(row: Option<real>, es: seq<Event>, k: nat)
    requires k < |es|
    ensures Run(Start(row), es[..k + 1]) == Step(Run(Start(row), es[..k]), es[k])
  {
    assert es[..k + 1][..k] == es[..k];
  }

  lemma NextThree(row: Option<real>, es: seq<Event>, k: nat)
    requires k + 2 < |es|
    ensures Run(Start(row), es[..k + 3]) == Step(Step(Step(Run(Start(row), es[..k]), es[k]), es[k + 1]), es[k + 2])
  {
    RunNext(row, es, k);
    RunNext(row, es, k + 1);
    RunNext(row, es, k + 2);
  }

  lemma UpToTheSense(row: Option<real>)
    ensures Run(Start(row), RejectedUpsert()[..3])
         == State(Chain([Link(None, Running)], Some(0)), [Sensing(row)], row, [], row, 0.0)
  {
    var es := RejectedUpsert();
    NextThree(row, es, 0);
    assert es[..0] == [];
    var s1 := Step(Start(row), Launch);
    assert s1.chain == Chain([Link(None, Waiting)], Some(0)) && s1.stages == [Queued];
    var s2 := Step(s1, Begin(0));
    assert s2.chain == Chain([Link(None, Running)], Some(0)) && s2.stages == [Loading];
  }

  lemma FromTheSense(s: State)
    requires s == State(Chain([Link(None, Running)], Some(0)), [Sensing(Some(0.0))], Some(0.0), [], Some(0.0), 0.0)
    ensures var s' := Step(Step(Step(s, Sensed(0, Some(1.0))), Upserted(0)), Failed(0));
      s'.row == Some(1.0) && s'.deltas == [] && s'.stages == [Over] && s'.lost == 1.0
  {
    var s1 := Step(s, Sensed(0, Some(1.0)));
    assert s1 == s.(stages := [Storing(Some(0.0), 1.0)]);
    var s2 := Step(s1, Upserted(0));
    assert s2 == s.(stages := [Stored(Some(0.0), 1.0)], row := Some(1.0));
  }

  /** Such a run: the mood swings from 0 to 1, the row says so, and the will was told nothing. */
  lemma RejectedUpsertLosesTheSwing()
    ensures var s := Run(Start(Some(0.0)), RejectedUpsert());
      s.row == Some(1.0) && s.deltas == [] && s.stages == [Over] && LostIn(Some(0.0), RejectedUpsert()) == 1.0
  {
    var es, row := RejectedUpsert(), Some(0.0);
    UpToTheSense(row);
    NextThree(row, es, 3);
    assert es[..6] == es;
    FromTheSense(Run(Start(row), es[..3]));
    LostIsRejected(row, es);
  }

  function StepAll(s: State, es: seq<Event>): State
    decreases |es|
  {
    if es == [] then s else StepAll(Step(s, es[0]), es[1..])
  }

  lemma BothLoad(s: State)
    requires |s.chain.links| == 2 && s.chain.links[0].phase == Running && s.chain.links[1].phase == Running
    requires s.stages == [Loading, Loading]
    ensures Step(Step(s, Loaded(0)), Loaded(1)) == s.(stages := [Sensing(s.row), Sensing(s.row)])
  {
    assert Step(s, Loaded(0)) == s.(stages := [Sensing(s.row), Loading]);
  }

  lemma BothTell(s: State)
    requires |s.chain.links| == 2 && s.chain.links[0].phase == Running && s.chain.links[1].phase == Running
    requires s.stages == [Sensing(s.row), Sensing(s.row)]
    ensures Step(Step(s, Sensed(0, Some(1.0))), Sensed(1, Some(1.0)))
         == s.(stages := [Storing(s.row, 1.0), Storing(s.row, 1.0)])
  {
    assert Step(s, Sensed(0, Some(1.0))) == s.(stages := [Storing(s.row, 1.0), Sensing(s.row)]);
  }

  lemma BothSense(s: State)
    requires |s.chain.links| == 2 && s.chain.links[0].phase == Running && s.chain.links[1].phase == Running
    requires s.stages == [Loading, Loading]
    ensures StepAll(s, [Loaded(0), Loaded(1), Sensed(0, Some(1.0)), Sensed(1, Some(1.0))])
         == s.(stages := [Storing(s.row, 1.0), Storing(s.row, 1.0)])
  {
    BothLoad(s);
    BothTell(s.(stages := [Sensing(s.row), Sensing(s.row)]));
    FourSteps(s, Loaded(0), Loaded(1), Sensed(0, Some(1.0)), Sensed(1, Some(1.0)));
  }

  /** Without the chain the law fails: two reads that load the same baseline both count the
      same swing. */
  lemma OverlappingReadsDoubleCount()
    ensures var links := [Link(None, Running), Link(None, Running)];
      var s := State(Chain(links, None), [Loading, Loading], Some(0.0), [], Some(0.0), 0.0);
      var s1 := StepAll(s, [Loaded(0), Loaded(1), Sensed(0, Some(1.0)), Sensed(1, Some(1.0))]);
      var s2 := StepAll(s1, [Upserted(0), Upserted(1), HandOver(0), HandOver(1)]);
      s2.row == Some(1.0) && s2.deltas == [1.0, 1.0]
  {
    var links := [Link(None, Running), Link(None, Running)];
    var s := State(Chain(links, None), [Loading, Loading], Some(0.0), [], Some(0.0), 0.0);
    BothSense(s);
    FourSteps(s.(stages := [Storing(Some(0.0), 1.0), Storing(Some(0.0), 1.0)]),
              Upserted(0), Upserted(1), HandOver(0), HandOver(1));
  }

  lemma StepFirst(s: State, e: Event, rest: seq<Event>)
    ensures StepAll(s, [e] + rest) == StepAll(Step(s, e), rest)
  {
    assert ([e] + rest)[1..] == rest;
  }

  lemma FourSteps(s: State, a: Event, b: Event, c: Event, d: Event)
    ensures StepAll(s, [a, b, c, d]) == Step(Step(Step(Step(s, a), b), c), d)
  {
    StepFirst(s, a, [b] + ([c] + ([d] + [])));
    StepFirst(Step(s, a), b, [c] + ([d] + []));
    StepFirst(Step(Step(s, a), b), c, [d] + []);
    StepFirst(Step(Step(Step(s, a), b), c), d, []);
    assert [a, b, c, d] == [a] + ([b] + ([c] + ([d] + [])));
  }

  /** All companions: the chains and rows are keyed, and an event touches its own key. */
  function At(all: map<string, State>, c: string): State {
    if c in all then all[c] else Start(None)
  }

  function RunAll(all: map<string, State>, es: seq<(string, Event)>): map<string, State> {
    if es == [] then all
    else
      var before := RunAll(all, es[..|es| - 1]);
      var (c, e) := es[|es| - 1];
      before[c := Step(At(before, c), e)]
  }

  function EventsOf(es: seq<(string, Event)>, c: string): seq<Event> {
    if es == [] then []
    else EventsOf(es[..|es| - 1], c) + (if es[|es| - 1].0 == c then [es[|es| - 1].1] else [])
  }

  /** A companion's reads see their own events only, whatever the others do. */
  lemma {:induction false} CompanionsAreIndependent(all: map<string, State>, es: seq<(string, Event)>, c: string)
    ensures At(RunAll(all, es), c) == Run(At(all, c), EventsOf(es, c))
  {
    if es != [] {
      var before := es[..|es| - 1];
      CompanionsAreIndependent(all, before, c);
      if es[|es| - 1].0 == c {
        assert EventsOf(es, c)[..|EventsOf(before, c)|] == EventsOf(before, c);
      } else {
        assert EventsOf(es, c) == EventsOf(before, c);
      }
    }
  }

  /** One companion's perception as the harness runs it: each method is one stretch of
      `chainAffect` or `perceiveAndLearn` between two awaits. */
  class AffectChain {
    var chain: Chain
    var stages: seq<Stage>
    var row: Option<real>
    var deltas: seq<real>
    ghost var base: Option<real>
    ghost var lost: real

    ghost function View(): State
      reads this
    {
      State(chain, stages, row, deltas, base, lost)
    }

    constructor (row: Option<real>)
      ensures View() == Start(row)
    {
      chain, stages, this.row, deltas, base, lost := EMPTY_CHAIN, [], row, [], row, 0.0;
    }

    method ChainAffect() returns (read: nat)
      modifies this
      ensures View() == Step(old(View()), Launch) && read == |old(stages)|
    {
      read := |stages|;
      chain := SerialChain.Launch(chain);
      stages := stages + [Queued];
    }

    method OnPriorSettled(k: nat)
      requires k < |stages| == |chain.links| && Ready(chain, k)
      modifies this
      ensures View() == Step(old(View()), Begin(k))
    {
      chain := SetPhase(chain, k, Running);
      stages := stages[k := Loading];
    }

    method OnPriorLoaded(k: nat)
      requires Active(View(), k) && stages[k].Loading?
      modifies this`stages
      ensures View() == Step(old(View()), Loaded(k))
    {
      stages := stages[k := Sensing(row)];
    }

    /** A read that sensed nothing keeps the baseline and teaches nothing. */
    method OnSensed(k: nat, reading: Option<real>)
      requires Active(View(), k) && stages[k].Sensing?
      modifies this`stages, this`chain
      ensures View() == Step(old(View()), Sensed(k, reading))
    {
      if reading.None? {
        Finish(k);
        return;
      }
      stages := stages[k := Storing(stages[k].prior, reading.value)];
    }

    method OnRowWritten(k: nat)
      requires Active(View(), k) && stages[k].Storing?
      modifies this
      ensures View() == Step(old(View()), Upserted(k))
    {
      var reading := stages[k].reading;
      row := Some(reading);
      if base.None? {
        base := Some(reading);
      }
      stages := stages[k := Stored(stages[k].prior, reading)];
    }

    /** The upsert resolves: hand the turn-over-turn change to the will. */
    method OnUpsertResolved(k: nat)
      requires Active(View(), k) && stages[k].Stored?
      modifies this`stages, this`deltas
      ensures View() == Step(old(View()), HandOver(k))
    {
      var prior, reading := stages[k].prior, stages[k].reading;
      var delta := if prior.Some? then reading - prior.value else 0.0;
      deltas := deltas + [delta];
      stages := stages[k := Reinforcing];
    }

    method OnReinforced(k: nat)
      requires Active(View(), k) && stages[k].Reinforcing?
      modifies this`stages, this`chain
      ensures View() == Step(old(View()), Reinforced(k))
    {
      Finish(k);
    }

    /** Any await may reject, the upsert's even after its row was written; the read catches it
        and is over. */
    method OnRejected(k: nat)
      requires Active(View(), k) && !stages[k].Queued? && !stages[k].Over?
      modifies this`stages, this`chain, this`lost
      ensures View() == Step(old(View()), Failed(k))
    {
      if stages[k].Stored? {
        lost := lost + Delta(stages[k].prior, stages[k].reading);
      }
      Finish(k);
    }

    method OnFinally(k: nat)
      modifies this`chain
      ensures View() == Step(old(View()), Forget(k))
    {
      chain := Clear(chain, k);
    }

    method Finish(k: nat)
      requires Active(View(), k)
      modifies this`stages, this`chain
      ensures View() == Settle(old(View()), k)
    {
      chain := SetPhase(chain, k, Settled);
      stages := stages[k := Over];
    }
  }
}
