/** The growth high-water mark: concurrent recomputes advance one row by a compare-and-set
    that guards on the three bands and on the LENGTH of the capability list only. */
module Growth {
  import opened Wrappers

  datatype Capability = WebResearch | MemoryRecall | ReadingSources | FirstRoutine | MultiStepTask | MoodAttunement

  const CAPABILITIES := [WebResearch, MemoryRecall, ReadingSources, FirstRoutine, MultiStepTask, MoodAttunement]

  datatype Mark = Mark(knowledge: nat, bond: nat, initiative: nat, caps: seq<Capability>)

  const EMPTY_MARK := Mark(0, 0, 0, [])

  /** What a recompute derives from the substrate; it may be lower than the mark. */
  datatype View = View(knowledge: int, bond: int, initiative: int, demonstrated: set<Capability>)

  datatype Transition = Transition(
    knowledgeAdvanced: bool, bondAdvanced: bool, initiativeAdvanced: bool, newCapabilities: seq<Capability>)

  const EMPTY_TRANSITION := Transition(false, false, false, [])

  function Max(a: int, b: int): int {
    if a < b then b else a
  }

  function Observed(registry: seq<Capability>, demonstrated: set<Capability>): seq<Capability> {
    if registry == [] then []
    else (if registry[0] in demonstrated then [registry[0]] else []) + Observed(registry[1..], demonstrated)
  }

  /** The keys of `next` that `existing` does not have, in order. */
  function Fresh(existing: seq<Capability>, next: seq<Capability>): seq<Capability> {
    if next == [] then []
    else (if next[0] in existing then [] else [next[0]]) + Fresh(existing, next[1..])
  }

  function NewCapabilities(stored: Mark, view: View): seq<Capability> {
    Fresh(stored.caps, Observed(CAPABILITIES, view.demonstrated))
  }

  function Target(stored: Mark, view: View): Mark {
    Mark(Max(stored.knowledge, view.knowledge), Max(stored.bond, view.bond), Max(stored.initiative, view.initiative),
         stored.caps + NewCapabilities(stored, view))
  }

  function TransitionOf(stored: Mark, view: View): Transition {
    Transition(view.knowledge > stored.knowledge, view.bond > stored.bond, view.initiative > stored.initiative,
               NewCapabilities(stored, view))
  }

  /** The row's WHERE clause. */
  predicate Guard(row: Option<Mark>, from: Mark) {
    && row.Some?
    && row.value.knowledge == from.knowledge && row.value.bond == from.bond && row.value.initiative == from.initiative
    && |row.value.caps| == |from.caps|
  }

  /** Where a recompute is suspended. */
  datatype Task =
    | Viewed(view: View)
    | Inserting(view: View)
    | Rereading(view: View)
    | Snapped(view: View, stored: Mark)
    | Done(result: Transition)

  datatype Win = Win(from: Mark, target: Mark, transition: Transition)

  /** One companion's row, the recomputes in flight, and the history of won advances. */
  datatype State = State(row: Option<Mark>, tasks: map<nat, Task>, wins: seq<Win>)

  const NEW := State(None, map[], [])

  datatype Event =
    | Start(id: nat, view: View)
    | Read(id: nat)
    | Insert(id: nat)
    | Reread(id: nat)
    | Advance(id: nat)

  function Created(row: Option<Mark>): Option<Mark> {
    if row.None? then Some(EMPTY_MARK) else row
  }

  function AdvanceTask(s: State, id: nat): State
    requires id in s.tasks && s.tasks[id].Snapped?
  {
    var stored, view := s.tasks[id].stored, s.tasks[id].view;
    var transition := TransitionOf(stored, view);
    if transition == EMPTY_TRANSITION || !Guard(s.row, stored)
    then s.(tasks := s.tasks[id := Done(EMPTY_TRANSITION)])
    else State(Some(Target(stored, view)), s.tasks[id := Done(transition)],
               s.wins + [Win(stored, Target(stored, view), transition)])
  }

  function Step(s: State, e: Event): State {
    match e
    case Start(id, view) =>
      if id in s.tasks && !s.tasks[id].Done? then s else s.(tasks := s.tasks[id := Viewed(view)])
    case Read(id) =>
      if id !in s.tasks || !s.tasks[id].Viewed? then s
      else if s.row.Some? then s.(tasks := s.tasks[id := Snapped(s.tasks[id].view, s.row.value)])
      else s.(tasks := s.tasks[id := Inserting(s.tasks[id].view)])
    case Insert(id) =>
      if id !in s.tasks || !s.tasks[id].Inserting? then s
      else s.(row := Created(s.row), tasks := s.tasks[id := Rereading(s.tasks[id].view)])
    case Reread(id) =>
      if id !in s.tasks || !s.tasks[id].Rereading? then s
      else s.(tasks := s.tasks[id := Snapped(s.tasks[id].view, if s.row.Some? then s.row.value else EMPTY_MARK)])
    case Advance(id) =>
      if id !in s.tasks || !s.tasks[id].Snapped? then s else AdvanceTask(s, id)
  }

  function Run(s: State, es: seq<Event>): State {
    if es == [] then s else Step(Run(s, es[..|es| - 1]), es[|es| - 1])
  }

  predicate AtMost(a: Mark, b: Mark) {
    a.knowledge <= b.knowledge && a.bond <= b.bond && a.initiative <= b.initiative && a.caps <= b.caps
  }

  ghost predicate Distinct(caps: seq<Capability>) {
    forall i, j :: 0 <= i < j < |caps| ==> caps[i] != caps[j]
  }

  lemma {:induction false} ObservedIsDistinct(registry: seq<Capability>, demonstrated: set<Capability>)
    requires Distinct(registry)
    ensures Distinct(Observed(registry, demonstrated))
    ensures forall c :: c in Observed(registry, demonstrated) <==> c in registry && c in demonstrated
  {
    if registry != [] {
      ObservedIsDistinct(registry[1..], demonstrated);
      assert forall c :: c in registry <==> c == registry[0] || c in registry[1..];
    }
  }

  lemma {:induction false} FreshExtends(existing: seq<Capability>, next: seq<Capability>)
    requires Distinct(existing) && Distinct(next)
    ensures Distinct(existing + Fresh(existing, next))
    ensures forall c :: c in Fresh(existing, next) <==> c in next && c !in existing
  {
    FreshIsTheRest(existing, next);
    var all := existing + Fresh(existing, next);
    forall i, j | 0 <= i < j < |all| ensures all[i] != all[j] {
      if i < |existing| && j >= |existing| {
        assert all[i] in existing && all[j] in Fresh(existing, next);
      }
    }
  }

  lemma {:induction false} FreshIsTheRest(existing: seq<Capability>, next: seq<Capability>)
    requires Distinct(next)
    ensures Distinct(Fresh(existing, next))
    ensures forall c :: c in Fresh(existing, next) <==> c in next && c !in existing
  {
    if next != [] {
      FreshIsTheRest(existing, next[1..]);
      assert forall c :: c in next <==> c == next[0] || c in next[1..];
    }
  }

  lemma RegistryIsComplete()
    ensures Distinct(CAPABILITIES) && forall c: Capability :: c in CAPABILITIES
  {
    forall c: Capability
      ensures c in CAPABILITIES
    {
      match c
      case WebResearch => assert CAPABILITIES[0] == c;
      case MemoryRecall => assert CAPABILITIES[1] == c;
      case ReadingSources => assert CAPABILITIES[2] == c;
      case FirstRoutine => assert CAPABILITIES[3] == c;
      case MultiStepTask => assert CAPABILITIES[4] == c;
      case MoodAttunement => assert CAPABILITIES[5] == c;
    }
  }

  /** The union keeps what was there as a prefix, adds exactly what is new, and each once. */
  lemma TargetExtends(stored: Mark, view: View)
    requires Distinct(stored.caps)
    ensures AtMost(stored, Target(stored, view)) && Distinct(Target(stored, view).caps)
    ensures forall c :: c in Target(stored, view).caps <==> c in stored.caps || c in view.demonstrated
    ensures Target(stored, view).knowledge >= view.knowledge && Target(stored, view).bond >= view.bond
            && Target(stored, view).initiative >= view.initiative
    ensures TransitionOf(stored, view) == EMPTY_TRANSITION <==> Target(stored, view) == stored
  {
    ObservedIsDistinct(CAPABILITIES, view.demonstrated);
    FreshExtends(stored.caps, Observed(CAPABILITIES, view.demonstrated));
    RegistryIsComplete();
    assert |Target(stored, view).caps| == |stored.caps| + |NewCapabilities(stored, view)|;
    if NewCapabilities(stored, view) == [] {
      assert Target(stored, view).caps == stored.caps;
    }
  }

  function EndOf(wins: seq<Win>): Mark {
    if wins == [] then EMPTY_MARK else wins[|wins| - 1].target
  }

  /** The wins form one chain from the empty mark to the row: each starts where the one before
      it ended. */
  ghost predicate Chained(wins: seq<Win>, end: Mark) {
    && (forall i :: 0 <= i < |wins| ==> wins[i].from == EndOf(wins[..i]))
    && end == EndOf(wins)
  }

  lemma ChainedSnoc(wins: seq<Win>, w: Win)
    requires Chained(wins, w.from)
    ensures Chained(wins + [w], w.target)
  {
    assert forall i :: 0 <= i <= |wins| ==> (wins + [w])[..i] == wins[..i];
  }

  lemma ChainedPrefix(wins: seq<Win>, end: Mark)
    requires Chained(wins, end) && wins != []
    ensures Chained(wins[..|wins| - 1], wins[|wins| - 1].from)
  {
    var before := wins[..|wins| - 1];
    assert forall i :: 0 <= i < |before| ==> before[i] == wins[i] && before[..i] == wins[..i];
  }

  ghost predicate WinOk(w: Win) {
    exists view ::
      w.target == Target(w.from, view) && w.transition == TransitionOf(w.from, view) && w.transition != EMPTY_TRANSITION
  }

  ghost predicate Inv(s: State) {
    && Chained(s.wins, if s.row.Some? then s.row.value else EMPTY_MARK)
    && (forall i :: 0 <= i < |s.wins| ==> WinOk(s.wins[i]))
    && (s.row.Some? ==> Distinct(s.row.value.caps))
    && (forall id :: id in s.tasks && s.tasks[id].Snapped? ==> s.row.Some? && AtMost(s.tasks[id].stored, s.row.value))
    && (forall id :: id in s.tasks && s.tasks[id].Rereading? ==> s.row.Some?)
  }

  /** Because every snapshot in flight is a prefix of the row, comparing bands and the list's
      length is comparing the whole mark. */
  lemma GuardComparesTheWholeMark(s: State, id: nat)
    requires Inv(s) && id in s.tasks && s.tasks[id].Snapped?
    ensures Guard(s.row, s.tasks[id].stored) <==> s.row == Some(s.tasks[id].stored)
  {
    var stored, row := s.tasks[id].stored, s.row.value;
    assert AtMost(stored, row);
    if |stored.caps| == |row.caps| {
      assert stored.caps == row.caps[..|stored.caps|] == row.caps;
    }
  }

  lemma WinKeepsInv(s: State, id: nat)
    requires Inv(s) && id in s.tasks && s.tasks[id].Snapped? && s.row == Some(s.tasks[id].stored)
    requires TransitionOf(s.tasks[id].stored, s.tasks[id].view) != EMPTY_TRANSITION
    ensures Inv(AdvanceTask(s, id)) && AtMostRow(s.row, AdvanceTask(s, id).row)
  {
    var stored, view, s' := s.tasks[id].stored, s.tasks[id].view, AdvanceTask(s, id);
    TargetExtends(stored, view);
    var w := Win(stored, Target(stored, view), TransitionOf(stored, view));
    assert s'.wins == s.wins + [w] && WinOk(w);
    ChainedSnoc(s.wins, w);
    forall i | i in s'.tasks && s'.tasks[i].Snapped?
      ensures AtMost(s'.tasks[i].stored, w.target)
    {
      assert AtMost(s.tasks[i].stored, stored) && AtMost(stored, w.target);
    }
  }

  lemma AdvanceKeepsInv(s: State, id: nat)
    requires Inv(s) && id in s.tasks && s.tasks[id].Snapped?
    ensures Inv(AdvanceTask(s, id)) && AtMostRow(s.row, AdvanceTask(s, id).row)
  {
    var stored, view := s.tasks[id].stored, s.tasks[id].view;
    GuardComparesTheWholeMark(s, id);
    if TransitionOf(stored, view) != EMPTY_TRANSITION && Guard(s.row, stored) {
      WinKeepsInv(s, id);
    }
  }

  predicate AtMostRow(a: Option<Mark>, b: Option<Mark>) {
    a.Some? ==> b.Some? && AtMost(a.value, b.value)
  }

  /** A task moves on without touching the row. */
  lemma TaskKeepsInv(s: State, id: nat, task: Task)
    requires Inv(s) && (task.Rereading? ==> s.row.Some?)
    requires task.Snapped? ==> s.row.Some? && AtMost(task.stored, s.row.value)
    ensures Inv(s.(tasks := s.tasks[id := task]))
  {
  }

  lemma InsertKeepsInv(s: State, id: nat)
    requires Inv(s) && id in s.tasks && s.tasks[id].Inserting?
    ensures Inv(Step(s, Insert(id))) && AtMostRow(s.row, Step(s, Insert(id)).row)
  {
  }

  lemma StepKeepsInv(s: State, e: Event)
    requires Inv(s)
    ensures Inv(Step(s, e)) && AtMostRow(s.row, Step(s, e).row) && s.wins <= Step(s, e).wins
  {
    if Step(s, e) != s {
      match e
      case Start(id, view) => TaskKeepsInv(s, id, Viewed(view));
      case Read(id) => TaskKeepsInv(s, id, Step(s, e).tasks[id]);
      case Insert(id) => InsertKeepsInv(s, id);
      case Reread(id) => TaskKeepsInv(s, id, Step(s, e).tasks[id]);
      case Advance(id) => AdvanceKeepsInv(s, id);
    }
  }

  lemma {:induction false} RunKeepsInv(es: seq<Event>)
    ensures Inv(Run(NEW, es))
  {
    if es != [] {
      RunKeepsInv(es[..|es| - 1]);
      StepKeepsInv(Run(NEW, es[..|es| - 1]), es[|es| - 1]);
    }
  }

  /** In every reachable state, for every recompute in flight, the weak compare-and-set succeeds
      exactly when the row is still the very mark it read. */
  lemma WeakCompareAndSetIsExact(es: seq<Event>, id: nat)
    requires id in Run(NEW, es).tasks && Run(NEW, es).tasks[id].Snapped?
    ensures var s := Run(NEW, es); Guard(s.row, s.tasks[id].stored) <==> s.row == Some(s.tasks[id].stored)
  {
    RunKeepsInv(es);
    GuardComparesTheWholeMark(Run(NEW, es), id);
  }

  /** The mark never moves back: bands only rise and the capability list only grows at its end. */
  lemma {:induction false} MarkNeverMovesBack(es: seq<Event>, more: seq<Event>)
    ensures AtMostRow(Run(NEW, es).row, Run(NEW, es + more).row)
    decreases |more|
  {
    if more == [] {
      assert es + more == es;
      RunKeepsInv(es);
    } else {
      var before := es + more[..|more| - 1];
      assert (es + more)[..|es + more| - 1] == before;
      MarkNeverMovesBack(es, more[..|more| - 1]);
      RunKeepsInv(before);
      StepKeepsInv(Run(NEW, before), more[|more| - 1]);
    }
  }

  /** The capabilities the wins announced, in order. */
  function Announced(wins: seq<Win>): seq<Capability> {
    if wins == [] then [] else Announced(wins[..|wins| - 1]) + wins[|wins| - 1].transition.newCapabilities
  }

  function Steps(wins: seq<Win>, axis: Mark -> nat): int {
    if wins == [] then 0
    else Steps(wins[..|wins| - 1], axis) + axis(wins[|wins| - 1].target) - axis(wins[|wins| - 1].from)
  }

  function Advances(wins: seq<Win>, advanced: Transition -> bool): nat {
    if wins == [] then 0
    else Advances(wins[..|wins| - 1], advanced) + if advanced(wins[|wins| - 1].transition) then 1 else 0
  }

  lemma {:induction false} ChainAnnouncesTheRow(wins: seq<Win>, end: Mark)
    requires Chained(wins, end) && forall i :: 0 <= i < |wins| ==> WinOk(wins[i])
    ensures Announced(wins) == end.caps
  {
    if wins != [] {
      var w := wins[|wins| - 1];
      ChainedPrefix(wins, end);
      ChainAnnouncesTheRow(wins[..|wins| - 1], w.from);
      var view :| w.target == Target(w.from, view) && w.transition == TransitionOf(w.from, view);
    }
  }

  lemma {:induction false} ChainTelescopes(wins: seq<Win>, end: Mark, axis: Mark -> nat)
    requires Chained(wins, end) && axis(EMPTY_MARK) == 0
    ensures Steps(wins, axis) == axis(end)
  {
    if wins != [] {
      var w := wins[|wins| - 1];
      ChainedPrefix(wins, end);
      ChainTelescopes(wins[..|wins| - 1], w.from, axis);
    }
  }

  ghost predicate Measures(axis: Mark -> nat, advanced: Transition -> bool) {
    forall stored, view {:trigger Target(stored, view)} ::
      var rise := axis(Target(stored, view)) - axis(stored);
      rise >= 0 && (advanced(TransitionOf(stored, view)) <==> rise > 0)
  }

  lemma {:induction false} AdvancesAtMostSteps(wins: seq<Win>, axis: Mark -> nat, advanced: Transition -> bool)
    requires Measures(axis, advanced) && forall i :: 0 <= i < |wins| ==> WinOk(wins[i])
    ensures Advances(wins, advanced) <= Steps(wins, axis)
  {
    if wins != [] {
      var w := wins[|wins| - 1];
      AdvancesAtMostSteps(wins[..|wins| - 1], axis, advanced);
      var view :| w.target == Target(w.from, view) && w.transition == TransitionOf(w.from, view);
    }
  }

  /** Over any number of concurrent recomputes, the row's capability list is exactly what the
      winners announced, in order, and no capability was announced twice. */
  lemma EachCapabilityIsWonOnce(es: seq<Event>)
    requires Run(NEW, es).row.Some?
    ensures var s := Run(NEW, es); Announced(s.wins) == s.row.value.caps && Distinct(Announced(s.wins))
  {
    RunKeepsInv(es);
    var s := Run(NEW, es);
    ChainAnnouncesTheRow(s.wins, s.row.value);
  }

  /** Per axis, the bands gained by the winners add up to the final band, so no more advances
      are ever announced than the final band counts. */
  lemma AdvancesNeverExceedTheBand(es: seq<Event>)
    requires Run(NEW, es).row.Some?
    ensures var s := Run(NEW, es);
      && Steps(s.wins, (m: Mark) => m.knowledge) == s.row.value.knowledge
      && Steps(s.wins, (m: Mark) => m.bond) == s.row.value.bond
      && Steps(s.wins, (m: Mark) => m.initiative) == s.row.value.initiative
      && Advances(s.wins, (t: Transition) => t.knowledgeAdvanced) <= s.row.value.knowledge
      && Advances(s.wins, (t: Transition) => t.bondAdvanced) <= s.row.value.bond
      && Advances(s.wins, (t: Transition) => t.initiativeAdvanced) <= s.row.value.initiative
  {
    RunKeepsInv(es);
    var s := Run(NEW, es);
    ChainTelescopes(s.wins, s.row.value, (m: Mark) => m.knowledge);
    ChainTelescopes(s.wins, s.row.value, (m: Mark) => m.bond);
    ChainTelescopes(s.wins, s.row.value, (m: Mark) => m.initiative);
    AdvancesAtMostSteps(s.wins, (m: Mark) => m.knowledge, (t: Transition) => t.knowledgeAdvanced);
    AdvancesAtMostSteps(s.wins, (m: Mark) => m.bond, (t: Transition) => t.bondAdvanced);
    AdvancesAtMostSteps(s.wins, (m: Mark) => m.initiative, (t: Transition) => t.initiativeAdvanced);
  }

  ghost predicate BandByBand(wins: seq<Win>, axis: Mark -> nat) {
    forall i :: 0 <= i < |wins| ==> axis(wins[i].target) <= axis(wins[i].from) + 1
  }

  lemma OneWin(w: Win, axis: Mark -> nat, advanced: Transition -> bool)
    requires Measures(axis, advanced) && WinOk(w)
    ensures axis(w.from) <= axis(w.target) && (advanced(w.transition) <==> axis(w.from) < axis(w.target))
  {
    var view :| w.target == Target(w.from, view) && w.transition == TransitionOf(w.from, view);
  }

  lemma {:induction false} AdvancesAreStepsIff(wins: seq<Win>, axis: Mark -> nat, advanced: Transition -> bool)
    requires Measures(axis, advanced) && forall i :: 0 <= i < |wins| ==> WinOk(wins[i])
    ensures Advances(wins, advanced) == Steps(wins, axis) <==> BandByBand(wins, axis)
  {
    if wins != [] {
      var before, w := wins[..|wins| - 1], wins[|wins| - 1];
      assert forall i :: 0 <= i < |before| ==> before[i] == wins[i];
      AdvancesAtMostSteps(before, axis, advanced);
      AdvancesAreStepsIff(before, axis, advanced);
      OneWin(w, axis, advanced);
      BandByBandNext(before, w, wins, axis);
    }
  }

  lemma BandByBandNext(before: seq<Win>, w: Win, wins: seq<Win>, axis: Mark -> nat)
    requires wins == before + [w]
    ensures BandByBand(wins, axis) <==> BandByBand(before, axis) && axis(w.target) <= axis(w.from) + 1
  {
    assert forall i :: 0 <= i < |before| ==> wins[i] == before[i];
    assert wins[|before|] == w;
  }

  /** Exactly when one advance was announced for each band reached: when no win skipped one. */
  lemma AdvancesMatchTheBandIff(es: seq<Event>)
    requires Run(NEW, es).row.Some?
    ensures var s := Run(NEW, es);
      && (Advances(s.wins, (t: Transition) => t.knowledgeAdvanced) == s.row.value.knowledge <==>
          BandByBand(s.wins, (m: Mark) => m.knowledge))
      && (Advances(s.wins, (t: Transition) => t.bondAdvanced) == s.row.value.bond <==>
          BandByBand(s.wins, (m: Mark) => m.bond))
      && (Advances(s.wins, (t: Transition) => t.initiativeAdvanced) == s.row.value.initiative <==>
          BandByBand(s.wins, (m: Mark) => m.initiative))
  {
    AdvancesNeverExceedTheBand(es);
    RunKeepsInv(es);
    var s := Run(NEW, es);
    AdvancesAreStepsIff(s.wins, (m: Mark) => m.knowledge, (t: Transition) => t.knowledgeAdvanced);
    AdvancesAreStepsIff(s.wins, (m: Mark) => m.bond, (t: Transition) => t.bondAdvanced);
    AdvancesAreStepsIff(s.wins, (m: Mark) => m.initiative, (t: Transition) => t.initiativeAdvanced);
  }

  /** Before the compare-and-set it can be read off the view: a win posts one note per band it
      gains on an axis if and only if the view is at most one band above the stored mark. */
  lemma OneNotePerBandIff(stored: Mark, view: View)
    ensures var target, t := Target(stored, view), TransitionOf(stored, view);
      && ((if t.knowledgeAdvanced then 1 else 0) == target.knowledge - stored.knowledge <==>
          view.knowledge <= stored.knowledge + 1)
      && ((if t.bondAdvanced then 1 else 0) == target.bond - stored.bond <==> view.bond <= stored.bond + 1)
      && ((if t.initiativeAdvanced then 1 else 0) == target.initiative - stored.initiative <==>
          view.initiative <= stored.initiative + 1)
  {
  }

  /** A companion that has read a lot before its first recompute. */
  function SkippingRun(): seq<Event> {
    [Start(0, View(2, 0, 0, {})), Read(0), Insert(0), Reread(0), Advance(0)]
  }

  /** Two bands reached, one advance announced. */
  lemma OneWinMaySkipABand()
    ensures var s := Run(NEW, SkippingRun());
      && s.row == Some(Mark(2, 0, 0, [])) && Advances(s.wins, (t: Transition) => t.knowledgeAdvanced) == 1
  {
    var es, view := SkippingRun(), View(2, 0, 0, {});
    RunNext(es, 0);
    RunNext(es, 1);
    RunNext(es, 2);
    RunNext(es, 3);
    RunNext(es, 4);
    assert es[..0] == [] && es[..5] == es;
    assert Run(NEW, es[..4]).tasks == map[0 := Snapped(view, EMPTY_MARK)];
    NothingObserved(CAPABILITIES);
    assert Fresh([], []) == [];
    assert Target(EMPTY_MARK, view) == Mark(2, 0, 0, []);
    var w := Win(EMPTY_MARK, Mark(2, 0, 0, []), TransitionOf(EMPTY_MARK, view));
    assert Run(NEW, es).wins == [w];
    assert [w][..0] == [];
  }

  lemma {:induction false} NothingObserved(registry: seq<Capability>)
    ensures Observed(registry, {}) == []
  {
    if registry != [] {
      NothingObserved(registry[1..]);
    }
  }

  lemma RunNext(es: seq<Event>, k: nat)
    requires k < |es|
    ensures Run(NEW, es[..k + 1]) == Step(Run(NEW, es[..k]), es[k])
  {
    assert es[..k + 1][..k] == es[..k];
  }

  /** A recompute that lost, or had nothing to add, reports the empty transition and leaves the
      row alone; one that won changed the row and covers everything it saw. */
  lemma AdvanceIsAllOrNothing(es: seq<Event>, id: nat)
    requires id in Run(NEW, es).tasks && Run(NEW, es).tasks[id].Snapped?
    ensures var s := Run(NEW, es); var s' := Step(s, Advance(id));
      && s'.tasks[id].Done?
      && (s'.tasks[id].result == EMPTY_TRANSITION <==> s'.row == s.row)
      && (s'.row != s.row ==> s'.tasks[id].result == TransitionOf(s.tasks[id].stored, s.tasks[id].view))
      && (s'.row != s.row ==>
            && s.row == Some(s.tasks[id].stored) && s'.row == Some(Target(s.tasks[id].stored, s.tasks[id].view))
            && (forall c :: c in s.tasks[id].view.demonstrated ==> c in s'.row.value.caps))
  {
    RunKeepsInv(es);
    var s := Run(NEW, es);
    GuardComparesTheWholeMark(s, id);
    TargetExtends(s.tasks[id].stored, s.tasks[id].view);
  }

  /** The guard is not exact between arbitrary marks: it cannot tell two lists of one length apart. */
  lemma GuardAloneIsWeak()
    ensures exists row: Mark, from: Mark :: Guard(Some(row), from) && row != from
  {
    var row, from := Mark(0, 0, 0, [WebResearch]), Mark(0, 0, 0, [MemoryRecall]);
    assert row.caps[0] != from.caps[0];
    assert Guard(Some(row), from) && row != from;
  }

  /** Four steps, or six when the row has to be created, with nobody in between. */
  function Alone(s: State, id: nat, view: View): State {
    var viewed := Step(Step(s, Start(id, view)), Read(id));
    Step(if s.row.Some? then viewed else Step(Step(viewed, Insert(id)), Reread(id)), Advance(id))
  }

  lemma SnapshotAlone(s: State, id: nat, view: View)
    requires id !in s.tasks
    ensures var viewed := Step(Step(s, Start(id, view)), Read(id));
      var snapped := if s.row.Some? then viewed else Step(Step(viewed, Insert(id)), Reread(id));
      && id in snapped.tasks && snapped.row == Created(s.row)
      && snapped.tasks[id] == Snapped(view, Created(s.row).value)
  {
  }

  /** A recompute nobody interrupts never loses: it lands its whole view. */
  lemma AloneAlwaysLands(s: State, id: nat, view: View)
    requires id !in s.tasks && (s.row.Some? ==> Distinct(s.row.value.caps))
    ensures var s' := Alone(s, id, view); var stored := Created(s.row).value;
      && id in s'.tasks && s'.row == Some(Target(stored, view))
      && s'.tasks[id] == Done(TransitionOf(stored, view))
  {
    SnapshotAlone(s, id, view);
    TargetExtends(Created(s.row).value, view);
  }

  datatype Note = KnowledgeNote | BondNote | InitiativeNote | CapabilityNote(capability: Capability)

  /** One note per kind of advance, however many bands it skipped, then one per capability. */
  function NotesOf(t: Transition): seq<Note> {
    AxisNotes(t) + CapabilityNotes(t.newCapabilities)
  }

  function AxisNotes(t: Transition): seq<Note> {
    (if t.knowledgeAdvanced then [KnowledgeNote] else [])
    + (if t.bondAdvanced then [BondNote] else [])
    + (if t.initiativeAdvanced then [InitiativeNote] else [])
  }

  lemma AxisNotesAre(t: Transition, notes: seq<Note>)
    requires var k := if t.knowledgeAdvanced then [] + [KnowledgeNote] else [];
      var kb := if t.bondAdvanced then k + [BondNote] else k;
      notes == if t.initiativeAdvanced then kb + [InitiativeNote] else kb
    ensures notes == AxisNotes(t)
  {
  }

  function CapabilityNotes(caps: seq<Capability>): seq<Note> {
    if caps == [] then [] else CapabilityNotes(caps[..|caps| - 1]) + [CapabilityNote(caps[|caps| - 1])]
  }

  lemma CapabilityNotesNext(before: seq<Note>, caps: seq<Capability>, i: nat)
    requires i < |caps|
    ensures before + CapabilityNotes(caps[..i + 1]) == before + CapabilityNotes(caps[..i]) + [CapabilityNote(caps[i])]
  {
    assert caps[..i + 1][..i] == caps[..i];
  }

  /** The notes whose post did not fail; `failing` are positions in the list. */
  function Surviving(notes: seq<Note>, failing: set<nat>): seq<Note> {
    if notes == [] then []
    else Surviving(notes[..|notes| - 1], failing)
         + if |notes| - 1 in failing then [] else [notes[|notes| - 1]]
  }

  predicate Advanced(t: Transition, note: Note) {
    match note
    case KnowledgeNote => t.knowledgeAdvanced
    case BondNote => t.bondAdvanced
    case InitiativeNote => t.initiativeAdvanced
    case CapabilityNote(c) => c in t.newCapabilities
  }

  lemma {:induction false} CapabilityNotesTell(caps: seq<Capability>)
    ensures |CapabilityNotes(caps)| == |caps|
    ensures forall i :: 0 <= i < |caps| ==> CapabilityNotes(caps)[i] == CapabilityNote(caps[i])
  {
    if caps != [] {
      CapabilityNotesTell(caps[..|caps| - 1]);
    }
  }

  lemma AxisNotesTell(t: Transition)
    ensures forall note :: note in AxisNotes(t) <==> !note.CapabilityNote? && Advanced(t, note)
    ensures forall i :: 0 <= i < |AxisNotes(t)| ==> !AxisNotes(t)[i].CapabilityNote?
    ensures forall i, j :: 0 <= i < j < |AxisNotes(t)| ==> AxisNotes(t)[i] != AxisNotes(t)[j]
  {
  }

  /** One note for every kind of advance and for every capability won, and none besides. */
  lemma NotesTellTheTransition(t: Transition, note: Note)
    ensures note in NotesOf(t) <==> Advanced(t, note)
  {
    AxisNotesTell(t);
    CapabilityNotesTell(t.newCapabilities);
    if note.CapabilityNote? && note.capability in t.newCapabilities {
      var i :| 0 <= i < |t.newCapabilities| && t.newCapabilities[i] == note.capability;
      assert CapabilityNotes(t.newCapabilities)[i] == note;
    }
  }

  ghost predicate TellInOrder(axes: seq<Note>, won: seq<Capability>, notes: seq<Note>) {
    && |notes| == |axes| + |won| && notes[..|axes|] == axes
    && (forall i :: 0 <= i < |won| ==> notes[|axes| + i] == CapabilityNote(won[i]))
    && (forall i, j :: 0 <= i < j < |notes| ==> notes[i] != notes[j])
  }

  lemma EachOnce(axes: seq<Note>, caps: seq<Note>, won: seq<Capability>, notes: seq<Note>)
    requires |caps| == |won| && Distinct(won) && forall i :: 0 <= i < |won| ==> caps[i] == CapabilityNote(won[i])
    requires forall i :: 0 <= i < |axes| ==> !axes[i].CapabilityNote?
    requires forall i, j :: 0 <= i < j < |axes| ==> axes[i] != axes[j]
    requires notes == axes + caps
    ensures TellInOrder(axes, won, notes)
  {
    forall i, j | 0 <= i < j < |notes|
      ensures notes[i] != notes[j]
    {
      if i >= |axes| {
        assert won[i - |axes|] != won[j - |axes|];
      }
    }
  }

  /** Each once; the axes first, then the capabilities in the order they were won. */
  lemma NotesAreInOrder(t: Transition)
    requires Distinct(t.newCapabilities)
    ensures TellInOrder(AxisNotes(t), t.newCapabilities, NotesOf(t))
  {
    AxisNotesTell(t);
    CapabilityNotesTell(t.newCapabilities);
    EachOnce(AxisNotes(t), CapabilityNotes(t.newCapabilities), t.newCapabilities, NotesOf(t));
  }

  /** How many of the first n posts fail. */
  function FailingBelow(failing: set<nat>, n: nat): nat {
    if n == 0 then 0 else FailingBelow(failing, n - 1) + if n - 1 in failing then 1 else 0
  }

  lemma {:induction false} SurvivingCount(notes: seq<Note>, failing: set<nat>)
    ensures |Surviving(notes, failing)| + FailingBelow(failing, |notes|) == |notes|
  {
    if notes != [] {
      SurvivingCount(notes[..|notes| - 1], failing);
    }
  }

  /** Every note whose post did not fail is posted, and no other, in the same order: each moves up
      by the failures before it. */
  lemma {:induction false} SurvivingAreTheUnfailed(notes: seq<Note>, failing: set<nat>, i: nat)
    requires i < |notes| && i !in failing
    ensures |Surviving(notes, failing)| + FailingBelow(failing, |notes|) == |notes|
    ensures var moved := i - FailingBelow(failing, i);
      0 <= moved < |Surviving(notes, failing)| && Surviving(notes, failing)[moved] == notes[i]
    decreases |notes|
  {
    SurvivingCount(notes, failing);
    var before := notes[..|notes| - 1];
    SurvivingCount(before, failing);
    if i < |before| {
      SurvivingAreTheUnfailed(before, failing, i);
    }
  }

  /** The store: one companion's row. */
  class GrowthStore {
    var row: Option<Mark>

    constructor ()
      ensures row == None
    {
      row := None;
    }

    method GetSnapshot() returns (mark: Mark)
      modifies this
      ensures row == Created(old(row)) && row == Some(mark)
    {
      if row.Some? {
        return row.value;
      }
      row := Some(EMPTY_MARK);
      mark := row.value;
    }

    method Advance(from: Mark, target: Mark) returns (won: bool)
      modifies this
      ensures won == Guard(old(row), from)
      ensures row == if won then Some(target) else old(row)
    {
      won := row.Some? && row.value.knowledge == from.knowledge && row.value.bond == from.bond
      && row.value.initiative == from.initiative && |row.value.caps| == |from.caps|;
      if won {
        row := Some(target);
      }
    }
  }

  class GrowthService {
    const growth: GrowthStore
    var transcript: seq<Note>

    constructor (growth: GrowthStore)
      ensures this.growth == growth && transcript == []
    {
      this.growth := growth;
      transcript := [];
    }

    /** A recompute nobody interrupts, as in `AloneAlwaysLands`, and the notes it posts; `failing`
        are the posts the transcript refuses. */
    method Recompute(view: Option<View>, failing: set<nat>) returns (transition: Transition, posted: seq<Note>)
      modifies this, growth
      ensures view.None? ==> growth.row == old(growth.row) && transition == EMPTY_TRANSITION && posted == []
      ensures view.Some? ==>
                var stored := Created(old(growth.row)).value;
                && transition == TransitionOf(stored, view.value)
                && growth.row == Some(Target(stored, view.value))
                && posted == Surviving(NotesOf(transition), failing)
      ensures transcript == old(transcript) + posted
    {
      transition, posted := EMPTY_TRANSITION, [];
      if view.None? {
        return;
      }
      var stored := growth.GetSnapshot();
      var unseen := Fresh(stored.caps, Observed(CAPABILITIES, view.value.demonstrated));
      if view.value.knowledge <= stored.knowledge && view.value.bond <= stored.bond
         && view.value.initiative <= stored.initiative && unseen == []
      {
        assert Target(stored, view.value).caps == stored.caps;
        return;
      }
      var target := Mark(Max(stored.knowledge, view.value.knowledge), Max(stored.bond, view.value.bond),
                         Max(stored.initiative, view.value.initiative), stored.caps + unseen);
      var won := growth.Advance(stored, target);
      if !won {
        return;
      }
      transition := Transition(view.value.knowledge > stored.knowledge, view.value.bond > stored.bond,
                               view.value.initiative > stored.initiative, unseen);
      posted := Announce(transition, failing);
    }

    /** Best effort: a post that fails is skipped, the later ones are still made. */
    method Announce(t: Transition, failing: set<nat>) returns (posted: seq<Note>)
      modifies this
      ensures posted == Surviving(NotesOf(t), failing) && transcript == old(transcript) + posted
    {
      var notes := Notes(t);
      posted := [];
      for i := 0 to |notes|
        invariant posted == Surviving(notes[..i], failing)
        invariant transcript == old(transcript) + posted
      {
        assert notes[..i + 1][..i] == notes[..i];
        if i !in failing {
          posted := posted + [notes[i]];
          transcript := transcript + [notes[i]];
        }
      }
      assert notes[..|notes|] == notes;
    }

    method Notes(t: Transition) returns (notes: seq<Note>)
      ensures notes == NotesOf(t)
    {
      notes := [];
      if t.knowledgeAdvanced {
        notes := notes + [KnowledgeNote];
      }
      if t.bondAdvanced {
        notes := notes + [BondNote];
      }
      if t.initiativeAdvanced {
        notes := notes + [InitiativeNote];
      }
      AxisNotesAre(t, notes);
      var caps := t.newCapabilities;
      for i := 0 to |caps|
        invariant notes == AxisNotes(t) + CapabilityNotes(caps[..i])
      {
        CapabilityNotesNext(AxisNotes(t), caps, i);
        notes := notes + [CapabilityNote(caps[i])];
      }
      assert caps[..|caps|] == caps;
    }
  }
}
