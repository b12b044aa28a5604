/** The affect reads of one companion, told by the events of a run alone: whose turn it is, what
    each read sensed, which upserts took effect and what the will was told. Nothing here looks at
    the stages or the row; the theorems say that they agree. */
module AffectHistory {
  import opened Wrappers
  import SerialChain
  import opened Affect

  /** How far one read has come. */
  datatype Course = NotYet | Waits | Loads | Senses | Stores | HasStored | Tells | Done

  function Launched(es: seq<Event>): nat {
    if es == [] then 0 else Launched(es[..|es| - 1]) + if es[|es| - 1] == Launch then 1 else 0
  }

  /** First come, first served: k waits, and every read before it is done. */
  ghost predicate Turn(es: seq<Event>, k: nat)
    decreases |es|, 2
  {
    CourseOf(es, k) == Waits && forall j: nat :: j < k ==> CourseOf(es, j) == Done
  }

  ghost function CourseOf(es: seq<Event>, k: nat): Course
    decreases |es|, 1
  {
    if es == [] then NotYet
    else
      var before, e := es[..|es| - 1], es[|es| - 1];
      var p := CourseOf(before, k);
      if e == Launch then (if k == Launched(before) then Waits else p)
      else if e.read == k then After(p, e, Turn(before, k))
      else p
  }

  /** A read loads, senses, stores and hands over, in that order; it is done when it sensed nothing,
      when the will has taken its change, or when any of its awaits rejects. */
  function After(p: Course, e: Event, turn: bool): Course {
    match e
    case Begin(_) => if turn then Loads else p
    case Loaded(_) => if p == Loads then Senses else p
    case Sensed(_, reading) => if p == Senses then (if reading.Some? then Stores else Done) else p
    case Upserted(_) => if p == Stores then HasStored else p
    case HandOver(_) => if p == HasStored then Tells else p
    case Reinforced(_) => if p == Tells then Done else p
    case Failed(_) => if p != NotYet && p != Waits then Done else p
    case _ => p
  }

  /** What read k sensed. */
  ghost function Reading(es: seq<Event>, k: nat): real {
    if es == [] then 0.0
    else
      var before, e := es[..|es| - 1], es[|es| - 1];
      if e.Sensed? && e.read == k && e.reading.Some? && CourseOf(before, k) == Senses then e.reading.value
      else Reading(before, k)
  }

  /** The upsert of this read takes effect. */
  ghost predicate Writes(es: seq<Event>, e: Event) {
    e.Upserted? && CourseOf(es, e.read) == Stores
  }

  /** The valences that were stored, oldest first: the row the run began with, then what each read
      sensed whose upsert took effect. */
  ghost function HeldBy(row: Option<real>, es: seq<Event>): seq<real> {
    if es == [] then (if row.Some? then [row.value] else [])
    else
      var before, e := es[..|es| - 1], es[|es| - 1];
      HeldBy(row, before) + if Writes(before, e) then [Reading(before, e.read)] else []
  }

  function LastOf(vs: seq<real>): Option<real> {
    if vs == [] then None else Some(vs[|vs| - 1])
  }

  /** What was stored when read k's own upsert ran. */
  ghost function Replaced(row: Option<real>, es: seq<Event>, k: nat): Option<real> {
    if es == [] then None
    else
      var before, e := es[..|es| - 1], es[|es| - 1];
      if e == Upserted(k) && Writes(before, e) then LastOf(HeldBy(row, before)) else Replaced(row, before, k)
  }

  /** The change read k made: none if there was nothing stored before it. */
  ghost function Change(row: Option<real>, es: seq<Event>, k: nat): real {
    match Replaced(row, es, k)
    case None => 0.0
    case Some(earlier) => Reading(es, k) - earlier
  }

  /** What the will was told: the change of each read that handed over, in that order. */
  ghost function ToldBy(row: Option<real>, es: seq<Event>): seq<real> {
    if es == [] then []
    else
      var before, e := es[..|es| - 1], es[|es| - 1];
      ToldBy(row, before)
      + if e.HandOver? && CourseOf(before, e.read) == HasStored then [Change(row, before, e.read)] else []
  }

  /** What it was never told: the changes of reads that failed after their upsert took effect. */
  ghost function UntoldBy(row: Option<real>, es: seq<Event>): real {
    if es == [] then 0.0
    else
      var before, e := es[..|es| - 1], es[|es| - 1];
      UntoldBy(row, before)
      + if e.Failed? && CourseOf(before, e.read) == HasStored then Change(row, before, e.read) else 0.0
  }

  ghost predicate StageFollows(row: Option<real>, es: seq<Event>, s: State, k: nat) {
    && |s.stages| == |s.chain.links|
    && if CourseOf(es, k) == NotYet then k >= |s.stages|
       else
         && k < |s.stages|
         && s.chain.links[k].phase == PhaseOf(CourseOf(es, k))
         && s.stages[k] == StageAt(CourseOf(es, k), LastOf(HeldBy(row, es)), Replaced(row, es, k), Reading(es, k))
  }

  function PhaseOf(course: Course): SerialChain.Phase {
    if course == NotYet || course == Waits then SerialChain.Waiting
    else if course == Done then SerialChain.Settled
    else SerialChain.Running
  }

  /** What a read carries: the stored valence it loaded, and what it sensed. */
  function StageAt(course: Course, held: Option<real>, replaced: Option<real>, reading: real): Stage {
    match course
    case Loads => Loading
    case Senses => Sensing(held)
    case Stores => Storing(held, reading)
    case HasStored => Stored(replaced, reading)
    case Tells => Reinforcing
    case Done => Over
    case _ => Queued
  }

  ghost predicate StagesFollow(row: Option<real>, es: seq<Event>, s: State) {
    |s.stages| == Launched(es) && forall k: nat :: StageFollows(row, es, s, k)
  }

  ghost predicate ValuesFollow(row: Option<real>, es: seq<Event>, s: State) {
    && s.row == LastOf(HeldBy(row, es))
    && s.deltas == ToldBy(row, es)
    && s.lost == UntoldBy(row, es)
  }

  lemma ReadyIsTurn(row: Option<real>, es: seq<Event>, s: State, k: nat)
    requires Inv(s) && StagesFollow(row, es, s)
    ensures SerialChain.Ready(s.chain, k) <==> Turn(es, k)
  {
    SerialChain.ReadyIffFirstInLine(s.chain, k);
    assert StageFollows(row, es, s, k);
    forall j: nat | j < k
      ensures CourseOf(es, j) == Done <==> j < |s.stages| && s.chain.links[j].phase == SerialChain.Settled
    {
      assert StageFollows(row, es, s, j);
    }
  }

  ghost predicate Known(row: Option<real>, es: seq<Event>, s: State) {
    Inv(s) && StagesFollow(row, es, s) && ValuesFollow(row, es, s)
  }

  /** The one read that stands at its upsert, its hand-over or anywhere in between is alone. */
  lemma RunningIsAlone(row: Option<real>, es: seq<Event>, s: State, j: nat, k: nat)
    requires Known(row, es, s) && PhaseOf(CourseOf(es, j)) == SerialChain.Running && j != k
    ensures PhaseOf(CourseOf(es, k)) != SerialChain.Running
  {
    assert StageFollows(row, es, s, j) && StageFollows(row, es, s, k);
    SerialChain.OneAtATimeInOrder(s.chain, j);
  }

  /** An event of another read leaves read k as it is. */
  lemma StepSparesOthers(s: State, e: Event, k: nat)
    requires |s.stages| == |s.chain.links| && (e != Launch ==> e.read != k || e.Forget?)
    ensures var s' := Step(s, e);
      && |s'.stages| == |s'.chain.links|
      && |s'.stages| == |s.stages| + (if e == Launch then 1 else 0)
      && (k < |s.stages| ==>
            s'.stages[k] == s.stages[k] && s'.chain.links[k].phase == s.chain.links[k].phase)
  {
  }

  lemma HeldNext(row: Option<real>, es: seq<Event>, e: Event, k: nat)
    ensures HeldBy(row, es + [e]) == HeldBy(row, es) + if Writes(es, e) then [Reading(es, e.read)] else []
    ensures !(e.Sensed? && e.read == k) ==> Reading(es + [e], k) == Reading(es, k)
    ensures Replaced(row, es + [e], k) ==
            if e == Upserted(k) && Writes(es, e) then LastOf(HeldBy(row, es)) else Replaced(row, es, k)
  {
    assert (es + [e])[..|es|] == es;
  }

  lemma OthersKeepTheCourse(es: seq<Event>, e: Event, k: nat)
    requires e != Launch && (e.read != k || e.Forget?)
    ensures CourseOf(es + [e], k) == CourseOf(es, k)
  {
    assert (es + [e])[..|es|] == es;
  }

  lemma SameStage(row: Option<real>, es: seq<Event>, e: Event, k: nat)
    requires e != Launch && (e.read != k || e.Forget?)
    requires Writes(es, e) ==> PhaseOf(CourseOf(es, k)) != SerialChain.Running
    ensures CourseOf(es + [e], k) == CourseOf(es, k)
    ensures StageAt(CourseOf(es, k), LastOf(HeldBy(row, es + [e])), Replaced(row, es + [e], k), Reading(es + [e], k))
         == StageAt(CourseOf(es, k), LastOf(HeldBy(row, es)), Replaced(row, es, k), Reading(es, k))
  {
    OthersKeepTheCourse(es, e, k);
    HeldNext(row, es, e, k);
  }

  lemma OthersFollow(row: Option<real>, es: seq<Event>, e: Event, s: State, k: nat)
    requires Known(row, es, s) && e != Launch && (e.read != k || e.Forget?)
    ensures StageFollows(row, es + [e], Step(s, e), k)
  {
    assert StageFollows(row, es, s, k);
    if Writes(es, e) {
      RunningIsAlone(row, es, s, e.read, k);
    }
    SameStage(row, es, e, k);
    StepSparesOthers(s, e, k);
  }

  lemma LaunchFollows(row: Option<real>, es: seq<Event>, s: State, k: nat)
    requires Known(row, es, s)
    ensures StageFollows(row, es + [Launch], Step(s, Launch), k)
  {
    assert (es + [Launch])[..|es|] == es;
    HeldNext(row, es, Launch, k);
    StepSparesOthers(s, Launch, k);
    assert StageFollows(row, es, s, k);
  }

  /** What a read's own event does to it. */
  lemma OwnStep(s: State, e: Event, k: nat, p: Course, held: Option<real>, replaced: Option<real>, reading: real)
    requires k < |s.stages| == |s.chain.links| && e != Launch && e.read == k && s.row == held && p != NotYet
    requires s.chain.links[k].phase == PhaseOf(p) && s.stages[k] == StageAt(p, held, replaced, reading)
    ensures var s' := Step(s, e);
      var q := After(p, e, SerialChain.Ready(s.chain, k));
      && q != NotYet && |s'.stages| == |s'.chain.links| == |s.stages|
      && s'.chain.links[k].phase == PhaseOf(q)
      && s'.stages[k] == StageAt(
        q, held,
        if e.Upserted? && p == Stores then held else replaced,
        if e.Sensed? && p == Senses && e.reading.Some? then e.reading.value else reading)
  {
  }

  lemma OwnNext(row: Option<real>, es: seq<Event>, e: Event, k: nat)
    requires e != Launch && e.read == k
    ensures CourseOf(es + [e], k) == After(CourseOf(es, k), e, Turn(es, k))
    ensures Reading(es + [e], k) == if e.Sensed? && CourseOf(es, k) == Senses && e.reading.Some? then e.reading.value
                                    else Reading(es, k)
  {
    assert (es + [e])[..|es|] == es;
  }

  lemma OwnFollows(row: Option<real>, es: seq<Event>, e: Event, s: State, k: nat)
    requires Known(row, es, s) && e != Launch && e.read == k
    ensures StageFollows(row, es + [e], Step(s, e), k)
  {
    assert StageFollows(row, es, s, k);
    ReadyIsTurn(row, es, s, k);
    OwnNext(row, es, e, k);
    HeldNext(row, es, e, k);
    if k < |s.stages| {
      OwnStep(s, e, k, CourseOf(es, k), LastOf(HeldBy(row, es)), Replaced(row, es, k), Reading(es, k));
    }
  }

  lemma OneMoreStages(row: Option<real>, es: seq<Event>, e: Event, s: State)
    requires Known(row, es, s)
    ensures StagesFollow(row, es + [e], Step(s, e))
  {
    assert (es + [e])[..|es|] == es;
    forall k: nat
      ensures StageFollows(row, es + [e], Step(s, e), k)
    {
      if e == Launch {
        LaunchFollows(row, es, s, k);
      } else if e.Forget? || e.read != k {
        OthersFollow(row, es, e, s, k);
      } else {
        OwnFollows(row, es, e, s, k);
      }
    }
    StepSparesOthers(s, e, if e == Launch then 0 else e.read + 1);
  }

  lemma OneMoreRow(row: Option<real>, es: seq<Event>, e: Event, s: State)
    requires s.row == LastOf(HeldBy(row, es)) && (e != Launch ==> StageFollows(row, es, s, e.read))
    ensures Step(s, e).row == LastOf(HeldBy(row, es + [e]))
  {
    HeldNext(row, es, e, 0);
  }

  lemma OneMoreDelta(row: Option<real>, es: seq<Event>, e: Event, s: State)
    requires s.deltas == ToldBy(row, es) && (e != Launch ==> StageFollows(row, es, s, e.read))
    ensures Step(s, e).deltas == ToldBy(row, es + [e])
  {
    assert (es + [e])[..|es|] == es;
  }

  lemma OneMoreLoss(row: Option<real>, es: seq<Event>, e: Event, s: State)
    requires s.lost == UntoldBy(row, es) && (e != Launch ==> StageFollows(row, es, s, e.read))
    ensures Step(s, e).lost == UntoldBy(row, es + [e])
  {
    assert (es + [e])[..|es|] == es;
  }

  lemma OneMoreValues(row: Option<real>, es: seq<Event>, e: Event, s: State)
    requires Known(row, es, s)
    ensures ValuesFollow(row, es + [e], Step(s, e))
  {
    if e != Launch {
      assert StageFollows(row, es, s, e.read);
    }
    OneMoreRow(row, es, e, s);
    OneMoreDelta(row, es, e, s);
    OneMoreLoss(row, es, e, s);
  }

  lemma {:induction false} RunIsKnown(row: Option<real>, es: seq<Event>)
    ensures Known(row, es, Run(Start(row), es))
  {
    RunKeepsInv(row, es);
    if es == [] {
      assert forall k: nat :: StageFollows(row, es, Start(row), k);
    } else {
      var before, e := es[..|es| - 1], es[|es| - 1];
      assert before + [e] == es;
      RunIsKnown(row, before);
      OneMoreStages(row, before, e, Run(Start(row), before));
      OneMoreValues(row, before, e, Run(Start(row), before));
    }
  }

  /** Over every run: the valences the row has held are the one it began with and then exactly what
      was sensed by the reads whose upsert took effect, and the row is the last of them. */
  lemma {:induction false} HeldIsWhatWasSensed(row: Option<real>, es: seq<Event>)
    ensures Held(row, es) == HeldBy(row, es) && Run(Start(row), es).row == LastOf(HeldBy(row, es))
  {
    RunIsKnown(row, es);
    if es != [] {
      var before, e := es[..|es| - 1], es[|es| - 1];
      HeldIsWhatWasSensed(row, before);
      WritesIffTheStagesMove(row, before, e);
    }
  }

  lemma WritesIffTheStagesMove(row: Option<real>, es: seq<Event>, e: Event)
    ensures var s := Run(Start(row), es); var s' := Step(s, e);
      && (Writes(es, e) <==> e.Upserted? && s'.stages != s.stages)
      && (Writes(es, e) ==> s'.row == Some(Reading(es, e.read)))
  {
    RunIsKnown(row, es);
    var s := Run(Start(row), es);
    if e.Upserted? {
      assert StageFollows(row, es, s, e.read);
      if Writes(es, e) {
        assert Step(s, e).stages[e.read].Stored?;
      }
    }
  }

  /** Over every run: what the will was told is, read by read, what that read sensed less what it
      replaced; and what was lost is the same of the reads that failed after their upsert. */
  lemma {:induction false} DeltasAreSensedChanges(row: Option<real>, es: seq<Event>)
    ensures Run(Start(row), es).deltas == ToldBy(row, es)
    ensures LostIn(row, es) == UntoldBy(row, es)
  {
    RunIsKnown(row, es);
    LostIsRejected(row, es);
  }

  /** The reads whose upsert took effect, in the order they did. */
  ghost function Writers(es: seq<Event>): seq<nat> {
    if es == [] then []
    else
      var before, e := es[..|es| - 1], es[|es| - 1];
      Writers(before) + if Writes(before, e) then [e.read] else []
  }

  function First(row: Option<real>): nat {
    if row.Some? then 1 else 0
  }

  /** The i-th upsert stored what its own read had sensed, over what was stored just before. */
  ghost predicate StoredOverThePrevious(row: Option<real>, es: seq<Event>, i: nat)
    requires i < |Writers(es)| && |HeldBy(row, es)| == First(row) + |Writers(es)|
  {
    var k, vs, n := Writers(es)[i], HeldBy(row, es), First(row) + i;
    && vs[n] == Reading(es, k)
    && Replaced(row, es, k) == LastOf(vs[..n])
    && (CourseOf(es, k) == HasStored || CourseOf(es, k) == Tells || CourseOf(es, k) == Done)
  }

  lemma WriterIsLater(row: Option<real>, es: seq<Event>, e: Event, j: nat)
    requires Writes(es, e) && PhaseOf(CourseOf(es, j)) != SerialChain.Waiting && CourseOf(es, j) != Stores
    ensures j < e.read
  {
    RunIsKnown(row, es);
    var s := Run(Start(row), es);
    assert StageFollows(row, es, s, j) && StageFollows(row, es, s, e.read);
    SerialChain.OneAtATimeInOrder(s.chain, e.read);
  }

  /** A read past its upsert stays so, and so does what it sensed and replaced. */
  lemma PastItsUpsert(row: Option<real>, es: seq<Event>, e: Event, k: nat)
    requires CourseOf(es, k) == HasStored || CourseOf(es, k) == Tells || CourseOf(es, k) == Done
    ensures var p := CourseOf(es + [e], k); p == HasStored || p == Tells || p == Done
    ensures Reading(es + [e], k) == Reading(es, k) && Replaced(row, es + [e], k) == Replaced(row, es, k)
  {
    HeldNext(row, es, e, k);
    assert (es + [e])[..|es|] == es;
    if e == Launch {
      RunIsKnown(row, es);
      assert StageFollows(row, es, Run(Start(row), es), k);
    } else if e.read == k {
      OwnNext(row, es, e, k);
    } else {
      OthersKeepTheCourse(es, e, k);
    }
  }

  lemma StoredStays(row: Option<real>, es: seq<Event>, e: Event, i: nat)
    requires i < |Writers(es)| && |HeldBy(row, es)| == First(row) + |Writers(es)|
    requires StoredOverThePrevious(row, es, i)
    ensures i < |Writers(es + [e])| && |HeldBy(row, es + [e])| == First(row) + |Writers(es + [e])|
    ensures StoredOverThePrevious(row, es + [e], i)
  {
    var k, n := Writers(es)[i], First(row) + i;
    assert (es + [e])[..|es|] == es;
    HeldNext(row, es, e, k);
    PastItsUpsert(row, es, e, k);
    assert HeldBy(row, es + [e])[..n] == HeldBy(row, es)[..n];
  }

  /** Over every run: the upserts that took effect did so in launch order, and each stored what its
      own read had sensed in place of what the one before it had stored. */
  lemma {:induction false} UpsertsAreInLaunchOrder(row: Option<real>, es: seq<Event>)
    ensures |HeldBy(row, es)| == First(row) + |Writers(es)|
    ensures row.Some? ==> HeldBy(row, es)[0] == row.value
    ensures forall i :: 0 <= i < |Writers(es)| ==> StoredOverThePrevious(row, es, i)
    ensures forall i, j :: 0 <= i < j < |Writers(es)| ==> Writers(es)[i] < Writers(es)[j]
  {
    if es != [] {
      var before, e := es[..|es| - 1], es[|es| - 1];
      assert before + [e] == es;
      UpsertsAreInLaunchOrder(row, before);
      forall i | 0 <= i < |Writers(before)|
        ensures StoredOverThePrevious(row, es, i)
        ensures Writes(before, e) ==> Writers(before)[i] < e.read
      {
        StoredStays(row, before, e, i);
        if Writes(before, e) {
          WriterIsLater(row, before, e, Writers(before)[i]);
        }
      }
      if Writes(before, e) {
        HeldNext(row, before, e, e.read);
        OwnNext(row, before, e, e.read);
        assert HeldBy(row, es)[..First(row) + |Writers(before)|] == HeldBy(row, before);
      }
    }
  }

  /** The promise chain serves the reads in launch order, over every run: a read may begin exactly
      when all before it are done, and every read stands where its own events left it. */
  lemma ReadsAreServedInOrder(row: Option<real>, es: seq<Event>, k: nat)
    ensures var s := Run(Start(row), es);
      && |s.stages| == |s.chain.links| == Launched(es)
      && (SerialChain.Ready(s.chain, k) <==> Turn(es, k))
      && (Active(s, k) <==> CourseOf(es, k) !in {NotYet, Waits, Done})
      && (CourseOf(es, k) == Done <==> k < |s.stages| && s.stages[k] == Over)
      && (CourseOf(es, k) == Stores ==> s.stages[k] == Storing(s.row, Reading(es, k)))
  {
    RunIsKnown(row, es);
    ReadyIsTurn(row, es, Run(Start(row), es), k);
    assert StageFollows(row, es, Run(Start(row), es), k);
  }
}
