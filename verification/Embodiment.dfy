/** The live embodiment claim: one row per companion, force-claimed by connection, fenced
    on the pair (connection id, claim number). Connection ids are sortable tokens, modelled
    by their rank; times are milliseconds. */
module Embodiment {
  import opened Wrappers

  /** The fence key a winning claim hands out. */
  datatype Binding = Binding(connectionId: nat, claimSeq: nat)

  datatype Row = Row(
    connectionId: nat,
    claimSeq: nat,
    node: string,
    lastHeartbeat: int,
    lastActivityAt: int,
    tabVisible: bool,
    updatedAt: int)

  type Table = map<string, Row>

  predicate Holds(t: Table, c: string, b: Binding) {
    c in t && t[c].connectionId == b.connectionId && t[c].claimSeq == b.claimSeq
  }

  /** A claim wins over no holder, an older token, or a holder past its TTL. */
  predicate Wins(t: Table, c: string, connectionId: nat, now: int, ttl: int) {
    c !in t || t[c].connectionId < connectionId || t[c].lastHeartbeat < now - ttl
  }

  function NextClaimSeq(t: Table, c: string): nat {
    if c in t then t[c].claimSeq + 1 else 1
  }

  function ClaimRow(t: Table, c: string, connectionId: nat, node: string, now: int): Row {
    Row(connectionId, NextClaimSeq(t, c), node, now, now, true, now)
  }

  datatype Patch =
    | Beat(tabVisible: bool)
    | Activity

  function Patched(row: Row, patch: Patch, now: int): Row {
    match patch
    case Beat(visible) => row.(tabVisible := visible, updatedAt := now)
    case Activity => row.(lastActivityAt := now, tabVisible := true, updatedAt := now)
  }

  datatype Event =
    | Claim(companion: string, connectionId: nat, node: string, ttl: int)
    | Renew(companion: string, binding: Binding)
    | Release(companion: string, binding: Binding)
    | Presence(companion: string, fence: Binding, patch: Patch)
    | Wait(ms: nat)

  datatype State = State(table: Table, now: int)

  function Step(s: State, e: Event): State {
    match e
    case Claim(c, conn, node, ttl) =>
      if Wins(s.table, c, conn, s.now, ttl)
      then s.(table := s.table[c := ClaimRow(s.table, c, conn, node, s.now)]) else s
    case Renew(c, b) =>
      if Holds(s.table, c, b)
      then s.(table := s.table[c := s.table[c].(lastHeartbeat := s.now, updatedAt := s.now)]) else s
    case Release(c, b) =>
      if Holds(s.table, c, b) then s.(table := s.table - {c}) else s
    case Presence(c, b, patch) =>
      if Holds(s.table, c, b) then s.(table := s.table[c := Patched(s.table[c], patch, s.now)]) else s
    case Wait(ms) =>
      s.(now := s.now + ms)
  }

  function Run(s: State, es: seq<Event>): State {
    if es == [] then s else Step(Run(s, es[..|es| - 1]), es[|es| - 1])
  }

  /** The binding a claim event returns, if it wins. */
  function Granted(s: State, e: Event): Option<Binding> {
    if e.Claim? && Wins(s.table, e.companion, e.connectionId, s.now, e.ttl)
    then Some(Binding(e.connectionId, NextClaimSeq(s.table, e.companion)))
    else None
  }

  /** A claim that grants exactly this binding, told by what can be read before it: it wins, it
      brings the same connection id, and the row's next claim number comes out the same. */
  predicate Regrants(s: State, e: Event, c: string, b: Binding) {
    && e.Claim? && e.companion == c && e.connectionId == b.connectionId
    && Wins(s.table, c, e.connectionId, s.now, e.ttl) && NextClaimSeq(s.table, c) == b.claimSeq
  }

  /** A step that takes the room from this binding: any winning claim, or its own release. */
  predicate Unseats(s: State, e: Event, c: string, b: Binding) {
    || (e.Claim? && e.companion == c && Wins(s.table, c, e.connectionId, s.now, e.ttl))
    || (e.Release? && e.companion == c && e.binding == b)
  }

  /** Exactly when a step makes a binding hold that did not. */
  lemma RevivedIff(s: State, e: Event, c: string, b: Binding)
    requires !Holds(s.table, c, b)
    ensures Holds(Step(s, e).table, c, b) <==> Regrants(s, e, c, b)
  {
  }

  /** Exactly when a step ends the hold of one that did. */
  lemma UnseatedIff(s: State, e: Event, c: string, b: Binding)
    requires Holds(s.table, c, b)
    ensures !Holds(Step(s, e).table, c, b) <==> Unseats(s, e, c, b)
  {
  }

  /** One room: two bindings that hold for one companion are the same binding. */
  lemma OneHolder(t: Table, c: string, a: Binding, b: Binding)
    requires Holds(t, c, a) && Holds(t, c, b)
    ensures a == b
  {
  }

  /** A winning claim fences out every binding granted before it; a losing one changes
      nothing, and loses only to a live holder with the same or a newer token. */
  lemma ClaimTakesTheRoom(s: State, e: Event, b: Binding)
    requires e.Claim?
    ensures Granted(s, e) == Some(b) ==> Holds(Step(s, e).table, e.companion, b)
    ensures Granted(s, e).Some? ==> forall a: Binding :: Holds(s.table, e.companion, a) ==>
      !Holds(Step(s, e).table, e.companion, a)
    ensures Granted(s, e).None? <==>
      && e.companion in s.table
      && e.connectionId <= s.table[e.companion].connectionId
      && s.now - e.ttl <= s.table[e.companion].lastHeartbeat
    ensures Granted(s, e).None? ==> Step(s, e) == s
  {
  }

  /** Everything a superseded connection does to the claim row is a no-op. */
  lemma FencedOutChangesNothing(s: State, e: Event)
    requires e.Renew? || e.Release? || e.Presence?
    requires !Holds(s.table, e.companion, if e.Presence? then e.fence else e.binding)
    ensures Step(s, e) == s
  {
  }

  /** The presence patches never touch the fence key nor the lease clock. */
  lemma PresenceKeepsTheClaim(s: State, e: Event, c: string, b: Binding)
    requires e.Presence?
    ensures Holds(Step(s, e).table, c, b) <==> Holds(s.table, c, b)
    ensures c in s.table ==>
      (c in Step(s, e).table && Step(s, e).table[c].lastHeartbeat == s.table[c].lastHeartbeat)
  {
  }

  /** Which claims on companion c use connection id k, from position i on. */
  predicate IdUsedFrom(es: seq<Event>, i: nat, c: string, k: nat) {
    exists j :: i <= j < |es| && es[j].Claim? && es[j].companion == c && es[j].connectionId == k
  }

  /** No release deletes companion c's row from position i on. */
  predicate NoDeleteFrom(s: State, es: seq<Event>, i: nat, c: string)
    requires i <= |es|
  {
    forall j :: i <= j < |es| && es[j].Release? && es[j].companion == c ==>
      !Holds(Run(s, es[..j]).table, c, es[j].binding)
  }

  lemma RunNext(s: State, es: seq<Event>, k: nat)
    requires k < |es|
    ensures Run(s, es[..k + 1]) == Step(Run(s, es[..k]), es[k])
  {
    assert es[..k + 1][..k] == es[..k];
  }

  /** Step l grants b anew, and no step between it and k unseats it. */
  ghost predicate HeldSince(s: State, es: seq<Event>, l: nat, k: nat, c: string, b: Binding)
    requires k <= |es|
  {
    l < k && Regrants(Run(s, es[..l]), es[l], c, b)
    && forall m :: l < m < k ==> !Unseats(Run(s, es[..m]), es[m], c, b)
  }

  lemma HeldSinceNext(s: State, es: seq<Event>, l: nat, k: nat, c: string, b: Binding)
    requires l < k <= |es|
    ensures HeldSince(s, es, l, k, c, b) <==>
            if l == k - 1 then Regrants(Run(s, es[..l]), es[l], c, b)
            else HeldSince(s, es, l, k - 1, c, b) && !Unseats(Run(s, es[..k - 1]), es[k - 1], c, b)
  {
  }

  lemma NextHold(u: State, e: Event, c: string, b: Binding)
    ensures Holds(Step(u, e).table, c, b) <==>
            if Holds(u.table, c, b) then !Unseats(u, e, c, b) else Regrants(u, e, c, b)
    ensures Holds(u.table, c, b) ==> !Regrants(u, e, c, b)
  {
  }

  /** Over every run: a binding that did not hold at j holds at k exactly when a claim in between
      granted it anew and nothing unseated it since. */
  lemma HoldsAgainIff(s: State, es: seq<Event>, j: nat, k: nat, c: string, b: Binding)
    requires j <= k <= |es| && !Holds(Run(s, es[..j]).table, c, b)
    ensures Holds(Run(s, es[..k]).table, c, b) <==> exists l :: j <= l < k && HeldSince(s, es, l, k, c, b)
  {
    HoldsIffHeldAgain(s, es, j, k, c, b);
  }

  lemma {:induction false} HoldsIffHeldAgain(s: State, es: seq<Event>, j: nat, k: nat, c: string, b: Binding)
    requires j <= k <= |es| && !Holds(Run(s, es[..j]).table, c, b)
    ensures Holds(Run(s, es[..k]).table, c, b) <==> HeldAgain(s, es, j, k, c, b)
    decreases k
  {
    if j < k {
      var h := k - 1;
      HoldsIffHeldAgain(s, es, j, h, c, b);
      RunNext(s, es, h);
      NextHold(Run(s, es[..h]), es[h], c, b);
      ExistsNext(s, es, j, h, k, c, b);
    }
  }

  ghost predicate HeldAgain(s: State, es: seq<Event>, j: nat, k: nat, c: string, b: Binding)
    requires k <= |es|
  {
    exists l :: j <= l < k && HeldSince(s, es, l, k, c, b)
  }

  /** Someone holds since before h, or the step at h grants. */
  lemma ExistsNext(s: State, es: seq<Event>, j: nat, h: nat, k: nat, c: string, b: Binding)
    requires j <= h && k == h + 1 && k <= |es|
    ensures HeldAgain(s, es, j, k, c, b) <==>
            || Regrants(Run(s, es[..h]), es[h], c, b)
            || (HeldAgain(s, es, j, h, c, b) && !Unseats(Run(s, es[..h]), es[h], c, b))
  {
    HeldSinceNext(s, es, h, k, c, b);
    if l :| j <= l < k && HeldSince(s, es, l, k, c, b) {
      HeldSinceNext(s, es, l, k, c, b);
    }
    if l :| j <= l < h && HeldSince(s, es, l, h, c, b) {
      HeldSinceNext(s, es, l, k, c, b);
    }
  }

  /** With unique connection ids, a binding granted at step i that does not hold at j
      never holds again: not even after the row was deleted. */
  lemma NeverRevivedWithUniqueIds(
    s: State, es: seq<Event>, i: nat, j: nat, k: nat, c: string, b: Binding)
    requires i < j <= k <= |es|
    requires es[i].Claim? && es[i].companion == c && Granted(Run(s, es[..i]), es[i]) == Some(b)
    requires !IdUsedFrom(es, i + 1, c, b.connectionId)
    requires !Holds(Run(s, es[..j]).table, c, b)
    ensures !Holds(Run(s, es[..k]).table, c, b)
  {
    HoldsAgainIff(s, es, j, k, c, b);
    forall l | j <= l < k
      ensures !HeldSince(s, es, l, k, c, b)
    {
      assert !(es[l].Claim? && es[l].companion == c && es[l].connectionId == b.connectionId);
    }
  }

  /** Between deletes the claim number only grows past a granted binding's. */
  lemma {:induction false} ClaimSeqGrows(s: State, es: seq<Event>, i: nat, k: nat, c: string, b: Binding)
    requires i < k <= |es|
    requires es[i].Claim? && es[i].companion == c && Granted(Run(s, es[..i]), es[i]) == Some(b)
    requires NoDeleteFrom(s, es, i, c)
    ensures c in Run(s, es[..k]).table && b.claimSeq <= Run(s, es[..k]).table[c].claimSeq
    decreases k
  {
    RunNext(s, es, k - 1);
    if i < k - 1 {
      ClaimSeqGrows(s, es, i, k - 1, c, b);
    }
  }

  /** With no delete in between, a recurring connection id revives nothing either: the
      claim number tells the two claims apart. */
  lemma {:induction false} NeverRevivedWithoutDelete(
    s: State, es: seq<Event>, i: nat, j: nat, k: nat, c: string, b: Binding)
    requires i < j <= k <= |es|
    requires es[i].Claim? && es[i].companion == c && Granted(Run(s, es[..i]), es[i]) == Some(b)
    requires NoDeleteFrom(s, es, i, c)
    requires !Holds(Run(s, es[..j]).table, c, b)
    ensures !Holds(Run(s, es[..k]).table, c, b)
    decreases k
  {
    if j < k {
      var h := k - 1;
      var u := Run(s, es[..h]);
      NeverRevivedWithoutDelete(s, es, i, j, h, c, b);
      RunNext(s, es, h);
      RevivedIff(u, es[h], c, b);
      ClaimSeqGrows(s, es, i, h, c, b);
    }
  }

  /** So a revival needs both, before it happens: a claim with the same id after the hold was
      lost, and a delete of the row since the binding was granted. */
  lemma RevivalNeedsRecurringIdAndDelete(s: State, es: seq<Event>, i: nat, j: nat, k: nat, c: string, b: Binding)
    requires i < j <= k <= |es|
    requires es[i].Claim? && es[i].companion == c && Granted(Run(s, es[..i]), es[i]) == Some(b)
    requires !Holds(Run(s, es[..j]).table, c, b)
    requires Holds(Run(s, es[..k]).table, c, b)
    ensures IdUsedFrom(es[..k], j, c, b.connectionId)
    ensures !NoDeleteFrom(s, es[..k], i, c)
  {
    HoldsAgainIff(s, es, j, k, c, b);
    var l :| j <= l < k && HeldSince(s, es, l, k, c, b);
    assert es[..k][l] == es[l];
    assert forall m :: 0 <= m <= k ==> es[..k][..m] == es[..m];
    if NoDeleteFrom(s, es[..k], i, c) {
      NeverRevivedWithoutDelete(s, es[..k], i, j, k, c, b);
    }
  }

  /** And then it can happen: a release deletes the row, so the next claim starts again at
      1, and a recurred id meets the number its superseded namesake was given. */
  lemma DeleteRestartsTheClaimSeq()
    ensures var s0 := State(map[], 0);
      var s1 := Step(s0, Claim("c", 7, "n", 30));
      var s2 := Step(s1, Claim("c", 8, "n", 30));
      var s3 := Step(s2, Release("c", Binding(8, 2)));
      var s4 := Step(s3, Claim("c", 7, "n", 30));
      && Granted(s0, Claim("c", 7, "n", 30)) == Some(Binding(7, 1))
      && !Holds(s2.table, "c", Binding(7, 1)) && !Holds(s3.table, "c", Binding(7, 1))
      && Holds(s4.table, "c", Binding(7, 1))
  {
  }

  /** Every claim attempt on c so far, by rank. */
  ghost predicate Attempted(es: seq<Event>, c: string, k: nat) {
    exists j :: 0 <= j < |es| && es[j].Claim? && es[j].companion == c && es[j].connectionId == k
  }

  /** No claim on c finds its holder's heartbeat lapsed. */
  ghost predicate NeverLapses(s: State, es: seq<Event>, c: string) {
    forall j :: 0 <= j < |es| && es[j].Claim? && es[j].companion == c && c in Run(s, es[..j]).table ==>
      Run(s, es[..j]).now - es[j].ttl <= Run(s, es[..j]).table[c].lastHeartbeat
  }

  /** Newer wins: while the holder keeps beating and nobody leaves, the room belongs to the
      newest token that ever asked for it, in whatever order the claims arrive. */
  lemma {:induction false} NewestTokenHoldsTheRoom(s: State, es: seq<Event>, c: string)
    requires c !in s.table
    requires NeverLapses(s, es, c) && NoDeleteFrom(s, es, 0, c)
    ensures var t := Run(s, es).table;
      && (c in t <==> exists k: nat :: Attempted(es, c, k))
      && (c in t ==> Attempted(es, c, t[c].connectionId)
                     && forall k: nat :: Attempted(es, c, k) ==> k <= t[c].connectionId)
  {
    if es != [] {
      var before, last := es[..|es| - 1], es[|es| - 1];
      forall j | 0 <= j < |before|
        ensures before[..j] == es[..j] && before[j] == es[j]
      {
      }
      NewestTokenHoldsTheRoom(s, before, c);
      assert es[..|before|] == before;
      var mine := last.Claim? && last.companion == c;
      forall k: nat
        ensures Attempted(es, c, k) <==> Attempted(before, c, k) || (mine && k == last.connectionId)
      {
        if Attempted(before, c, k) {
          var j :| 0 <= j < |before| && before[j].Claim? && before[j].companion == c && before[j].connectionId == k;
          assert es[j] == before[j];
        }
        if mine && k == last.connectionId {
          assert es[|es| - 1].connectionId == k;
        }
      }
      StepKeepsNewest(s, Run(s, before), before, es, c);
    }
  }

  lemma StepKeepsNewest(s: State, u: State, before: seq<Event>, es: seq<Event>, c: string)
    requires es != [] && before == es[..|es| - 1] && u == Run(s, before)
    requires NeverLapses(s, es, c) && NoDeleteFrom(s, es, 0, c)
    requires forall k: nat {:trigger Attempted(es, c, k)} :: Attempted(es, c, k) <==>
      Attempted(before, c, k) || (es[|es| - 1].Claim? && es[|es| - 1].companion == c && k == es[|es| - 1].connectionId)
    requires c in u.table <==> exists k: nat :: Attempted(before, c, k)
    requires c in u.table ==>
      (Attempted(before, c, u.table[c].connectionId)
       && forall k: nat :: Attempted(before, c, k) ==> k <= u.table[c].connectionId)
    ensures var t := Step(u, es[|es| - 1]).table;
      && (c in t <==> exists k: nat :: Attempted(es, c, k))
      && (c in t ==> Attempted(es, c, t[c].connectionId)
                     && forall k: nat :: Attempted(es, c, k) ==> k <= t[c].connectionId)
  {
    var last := es[|es| - 1];
    var t := Step(u, last).table;
    if last.Claim? && last.companion == c {
      assert Attempted(es, c, last.connectionId);
    } else {
      assert c in t <==> c in u.table;
      assert c in t ==> t[c].connectionId == u.table[c].connectionId;
      assert forall k: nat :: Attempted(es, c, k) <==> Attempted(before, c, k);
    }
  }

  /** The `active_embodiment` table behind the store and the presence store. Each method
      is one SQL statement; `now` is the database clock. */
  class ActiveEmbodiment {
    var table: Table
    var now: int

    function View(): State
      reads this
    {
      State(table, now)
    }

    method Claim(companion: string, connectionId: nat, node: string, ttl: int) returns (claim: Option<Binding>)
      modifies this`table
      ensures claim == Granted(old(View()), Event.Claim(companion, connectionId, node, ttl))
      ensures View() == Step(old(View()), Event.Claim(companion, connectionId, node, ttl))
      ensures claim.Some? ==> Holds(table, companion, claim.value)
    {
      if companion in table {
        var row := table[companion];
        if row.connectionId < connectionId || row.lastHeartbeat < now - ttl {
          table := table[companion := Row(connectionId, row.claimSeq + 1, node, now, now, true, now)];
          return Some(Binding(connectionId, row.claimSeq + 1));
        }
        return None;
      }
      table := table[companion := Row(connectionId, 1, node, now, now, true, now)];
      return Some(Binding(connectionId, 1));
    }

    /** False means superseded. */
    method Renew(companion: string, b: Binding) returns (held: bool)
      modifies this`table
      ensures held == Holds(old(table), companion, b)
      ensures View() == Step(old(View()), Event.Renew(companion, b))
    {
      held := IsHolder(companion, b);
      if held {
        table := table[companion := table[companion].(lastHeartbeat := now, updatedAt := now)];
      }
    }

    method IsHolder(companion: string, b: Binding) returns (held: bool)
      ensures held == Holds(table, companion, b)
    {
      held := companion in table && table[companion].connectionId == b.connectionId
        && table[companion].claimSeq == b.claimSeq;
    }

    method Release(companion: string, b: Binding)
      modifies this`table
      ensures View() == Step(old(View()), Event.Release(companion, b))
      ensures !Holds(table, companion, b)
    {
      var held := IsHolder(companion, b);
      if held {
        table := table - {companion};
      }
    }

    method Current(companion: string, ttl: int) returns (claim: Option<Binding>)
      ensures forall b :: claim == Some(b) <==>
        Holds(table, companion, b) && now - ttl <= table[companion].lastHeartbeat
    {
      if companion in table && table[companion].lastHeartbeat >= now - ttl {
        return Some(Binding(table[companion].connectionId, table[companion].claimSeq));
      }
      return None;
    }

    method FireUpdate(companion: string, fence: Binding, patch: Patch)
      modifies this`table
      ensures View() == Step(old(View()), Presence(companion, fence, patch))
    {
      var held := IsHolder(companion, fence);
      if held {
        var row := table[companion];
        match patch
        case Beat(visible) =>
          table := table[companion := row.(tabVisible := visible, updatedAt := now)];
        case Activity =>
          table := table[companion := row.(lastActivityAt := now, tabVisible := true, updatedAt := now)];
      }
    }
  }
}
