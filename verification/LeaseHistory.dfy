/** The claim row of one companion, told by the events of a run alone: who holds the room since
    which claim, and when the holder last beat, acted and was seen. Nothing here looks at the
    table; the theorems say that the row agrees. */
module LeaseHistory {
  import opened Wrappers
  import opened Embodiment

  /** The database clock. */
  function Clock(start: int, es: seq<Event>): int {
    if es == [] then start
    else Clock(start, es[..|es| - 1]) + if es[|es| - 1].Wait? then es[|es| - 1].ms else 0
  }

  /** A hold on the room, and the claim that granted it. */
  datatype Hold = Hold(binding: Binding, at: nat)

  /** What a holder does for its row: beat, act, report its tab, or any of these. */
  datatype Deed = Beats | Acts | Reports | Touches

  predicate Does(e: Event, c: string, b: Binding, deed: Deed) {
    match deed
    case Beats => e == Renew(c, b)
    case Acts => e == Presence(c, b, Activity)
    case Reports => e.Presence? && e.companion == c && e.fence == b
    case Touches => e == Renew(c, b) || (e.Presence? && e.companion == c && e.fence == b)
  }

  /** When the holder last did so; its grant counts as the first time. */
  function LastTime(start: int, es: seq<Event>, c: string, h: Hold, deed: Deed): int
    requires h.at < |es|
  {
    var before := es[..|es| - 1];
    if |before| == h.at || Does(es[|es| - 1], c, h.binding, deed) then Clock(start, before)
    else LastTime(start, before, c, h, deed)
  }

  /** Whether the tab was visible by the holder's last report; a new holder's is. */
  predicate Visible(es: seq<Event>, c: string, h: Hold)
    requires h.at < |es|
  {
    var before, e := es[..|es| - 1], es[|es| - 1];
    if |before| == h.at then true
    else if Does(e, c, h.binding, Reports) then e.patch.Beat? ==> e.patch.tabVisible
    else Visible(before, c, h)
  }

  /** The holder has not beaten for longer than the claimant's TTL. */
  predicate Lapsed(start: int, es: seq<Event>, c: string, h: Hold, ttl: int)
    requires h.at < |es|
  {
    Clock(start, es) - LastTime(start, es, c, h, Beats) > ttl
  }

  /** The claim gets the room: nobody is in it, the holder's token is older, or it lapsed. */
  predicate Takes(start: int, es: seq<Event>, c: string, e: Event)
    decreases |es|, 1
  {
    && e.Claim? && e.companion == c
    && var h := HolderAfter(start, es, c);
       || h.None?
       || h.value.binding.connectionId < e.connectionId
       || Lapsed(start, es, c, h.value, e.ttl)
  }

  /** Who is in the room. Claim numbers count up from the first claim after a release. */
  function HolderAfter(start: int, es: seq<Event>, c: string): (h: Option<Hold>)
    ensures h.Some? ==> h.value.at < |es| && es[h.value.at].Claim?
    decreases |es|, 0
  {
    if es == [] then None
    else
      var before, e := es[..|es| - 1], es[|es| - 1];
      var h := HolderAfter(start, before, c);
      if Takes(start, before, c, e) then
        Some(Hold(Binding(e.connectionId, if h.Some? then h.value.binding.claimSeq + 1 else 1), |before|))
      else if h.Some? && e == Release(c, h.value.binding) then None
      else h
  }

  predicate RowFollows(start: int, es: seq<Event>, c: string, t: Table) {
    match HolderAfter(start, es, c)
    case None => c !in t
    case Some(h) =>
      && c in t
      && t[c] == Row(h.binding.connectionId, h.binding.claimSeq, es[h.at].node, LastTime(start, es, c, h, Beats),
                     LastTime(start, es, c, h, Acts), Visible(es, c, h), LastTime(start, es, c, h, Touches))
  }

  lemma DeedNext(start: int, es: seq<Event>, c: string, h: Hold, e: Event, deed: Deed)
    requires h.at < |es|
    ensures LastTime(start, es + [e], c, h, deed) ==
            if Does(e, c, h.binding, deed) then Clock(start, es) else LastTime(start, es, c, h, deed)
  {
    assert (es + [e])[..|es|] == es;
  }

  lemma VisibleNext(es: seq<Event>, c: string, h: Hold, e: Event)
    requires h.at < |es|
    ensures Visible(es + [e], c, h) ==
            if Does(e, c, h.binding, Reports) then (e.patch.Beat? ==> e.patch.tabVisible) else Visible(es, c, h)
  {
    assert (es + [e])[..|es|] == es;
  }

  lemma Granting(start: int, es: seq<Event>, c: string, h: Hold, e: Event)
    requires h.at == |es|
    ensures forall deed :: LastTime(start, es + [e], c, h, deed) == Clock(start, es)
    ensures Visible(es + [e], c, h)
  {
    assert (es + [e])[..|es|] == es;
  }

  lemma HolderNext(start: int, es: seq<Event>, c: string, e: Event)
    ensures Clock(start, es + [e]) == Clock(start, es) + if e.Wait? then e.ms else 0
    ensures var h := HolderAfter(start, es, c);
      HolderAfter(start, es + [e], c) ==
      if Takes(start, es, c, e) then
        Some(Hold(Binding(e.connectionId, if h.Some? then h.value.binding.claimSeq + 1 else 1), |es|))
      else if h.Some? && e == Release(c, h.value.binding) then None
      else h
  {
    assert (es + [e])[..|es|] == es;
  }

  lemma ColumnsNext(start: int, es: seq<Event>, c: string, h: Hold, e: Event)
    requires h.at < |es|
    ensures LastTime(start, es + [e], c, h, Beats) ==
            if Does(e, c, h.binding, Beats) then Clock(start, es) else LastTime(start, es, c, h, Beats)
    ensures LastTime(start, es + [e], c, h, Acts) ==
            if Does(e, c, h.binding, Acts) then Clock(start, es) else LastTime(start, es, c, h, Acts)
    ensures LastTime(start, es + [e], c, h, Touches) ==
            if Does(e, c, h.binding, Touches) then Clock(start, es) else LastTime(start, es, c, h, Touches)
  {
    DeedNext(start, es, c, h, e, Beats);
    DeedNext(start, es, c, h, e, Acts);
    DeedNext(start, es, c, h, e, Touches);
  }

  lemma OneMoreClaim(start: int, es: seq<Event>, c: string, s: State, e: Event)
    requires s.now == Clock(start, es) && RowFollows(start, es, c, s.table) && Takes(start, es, c, e)
    ensures RowFollows(start, es + [e], c, Step(s, e).table)
  {
    HolderNext(start, es, c, e);
    Granting(start, es, c, HolderAfter(start, es + [e], c).value, e);
  }

  lemma OneMoreDeed(start: int, es: seq<Event>, c: string, h: Hold, s: State, e: Event)
    requires s.now == Clock(start, es) && RowFollows(start, es, c, s.table)
    requires HolderAfter(start, es, c) == Some(h) && !Takes(start, es, c, e) && e != Release(c, h.binding)
    ensures RowFollows(start, es + [e], c, Step(s, e).table)
  {
    HolderNext(start, es, c, e);
    ColumnsNext(start, es, c, h, e);
    VisibleNext(es, c, h, e);
    assert (es + [e])[h.at] == es[h.at];
  }

  lemma OneMoreLease(start: int, es: seq<Event>, c: string, s: State, e: Event)
    requires s.now == Clock(start, es) && RowFollows(start, es, c, s.table)
    ensures var s' := Step(s, e); s'.now == Clock(start, es + [e]) && RowFollows(start, es + [e], c, s'.table)
  {
    HolderNext(start, es, c, e);
    var h := HolderAfter(start, es, c);
    if Takes(start, es, c, e) {
      OneMoreClaim(start, es, c, s, e);
    } else if h.Some? && e != Release(c, h.value.binding) {
      OneMoreDeed(start, es, c, h.value, s, e);
    }
  }

  /** The claim row, over every run: its holder is the last claim that took the room and was not
      released since, and every column is the time or value of that holder's own last deed. In
      particular the lease clock stands at the holder's grant or its last own renew. */
  lemma {:induction false} RowIsItsHistory(s: State, es: seq<Event>, c: string)
    requires c !in s.table
    ensures Run(s, es).now == Clock(s.now, es)
    ensures RowFollows(s.now, es, c, Run(s, es).table)
  {
    if es != [] {
      var before := es[..|es| - 1];
      assert before + [es[|es| - 1]] == es;
      RowIsItsHistory(s, before, c);
      OneMoreLease(s.now, before, c, Run(s, before), es[|es| - 1]);
    }
  }

  /** Exactly when a step ends a hold, over every run: the holder's own release, a claim with a
      newer token, or a claim that comes more than its TTL after the holder's grant or last renew. */
  lemma HolderIsUnseatedIff(s: State, es: seq<Event>, c: string, b: Binding, e: Event)
    requires c !in s.table && Holds(Run(s, es).table, c, b)
    ensures var h := HolderAfter(s.now, es, c);
      && h.Some? && h.value.binding == b
      && (!Holds(Step(Run(s, es), e).table, c, b) <==>
            || e == Release(c, b)
            || (e.Claim? && e.companion == c
                && (b.connectionId < e.connectionId || Lapsed(s.now, es, c, h.value, e.ttl))))
  {
    RowIsItsHistory(s, es, c);
  }

  /** Whoever is in the room renews at least every ttl milliseconds, as long as it is there. */
  predicate KeepsBeating(start: int, es: seq<Event>, c: string, ttl: int) {
    es == [] ||
    (var h := HolderAfter(start, es, c);
     KeepsBeating(start, es[..|es| - 1], c, ttl) && (h.Some? ==> !Lapsed(start, es, c, h.value, ttl)))
  }

  /** No claim on c is made with a shorter TTL than this. */
  predicate ClaimsWithin(es: seq<Event>, c: string, ttl: int) {
    forall j :: 0 <= j < |es| && es[j].Claim? && es[j].companion == c ==> ttl <= es[j].ttl
  }

  lemma {:induction false} BeatingBefore(start: int, es: seq<Event>, c: string, ttl: int, k: nat)
    requires k <= |es| && KeepsBeating(start, es, c, ttl)
    ensures KeepsBeating(start, es[..k], c, ttl)
    decreases |es|
  {
    if k == |es| {
      assert es[..k] == es;
    } else {
      BeatingBefore(start, es[..|es| - 1], c, ttl, k);
      assert es[..|es| - 1][..k] == es[..k];
    }
  }

  /** A holder that renews at least every ttl is unseated only by its own release or a newer
      token, whoever claims and however the clock moves. */
  lemma BeatingHolderKeepsTheRoom(s: State, es: seq<Event>, c: string, b: Binding, e: Event, ttl: int)
    requires c !in s.table && Holds(Run(s, es).table, c, b)
    requires KeepsBeating(s.now, es, c, ttl)
    requires e.Claim? && e.companion == c ==> ttl <= e.ttl
    ensures !Holds(Step(Run(s, es), e).table, c, b) <==>
            e == Release(c, b) || (e.Claim? && e.companion == c && b.connectionId < e.connectionId)
  {
    HolderIsUnseatedIff(s, es, c, b, e);
  }

  /** Such a schedule is what keeps every claim from finding a lapsed holder. */
  lemma BeatingRoomNeverLapses(s: State, es: seq<Event>, c: string, ttl: int)
    requires c !in s.table && KeepsBeating(s.now, es, c, ttl) && ClaimsWithin(es, c, ttl)
    ensures NeverLapses(s, es, c)
  {
    forall j | 0 <= j < |es| && es[j].Claim? && es[j].companion == c && c in Run(s, es[..j]).table
      ensures Run(s, es[..j]).now - es[j].ttl <= Run(s, es[..j]).table[c].lastHeartbeat
    {
      BeatingBefore(s.now, es, c, ttl, j);
      RowIsItsHistory(s, es[..j], c);
    }
  }

  /** Newer wins: while every holder renews at least every ttl and nobody leaves, the room belongs
      to the newest token that ever asked for it, in whatever order the claims arrive. */
  lemma NewestTokenHoldsABeatingRoom(s: State, es: seq<Event>, c: string, ttl: int)
    requires c !in s.table && KeepsBeating(s.now, es, c, ttl) && ClaimsWithin(es, c, ttl)
    requires forall b: Binding :: Release(c, b) !in es
    ensures var h := HolderAfter(s.now, es, c);
      && (h.Some? <==> exists k: nat :: Attempted(es, c, k))
      && (h.Some? ==> Attempted(es, c, h.value.binding.connectionId)
                      && forall k: nat :: Attempted(es, c, k) ==> k <= h.value.binding.connectionId)
  {
    BeatingRoomNeverLapses(s, es, c, ttl);
    RowIsItsHistory(s, es, c);
    NewestTokenHoldsTheRoom(s, es, c);
  }
}
