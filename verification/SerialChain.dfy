/** The promise-tail idiom: each task is chained behind the tail it finds in a map, becomes
    the tail, and removes its own entry once it has settled, if it is still the tail. The
    bridge's establishes and the affect reads are both serialized this way. */
module SerialChain {
  import opened Wrappers

  datatype Phase = Waiting | Running | Settled

  datatype Link = Link(prior: Option<nat>, phase: Phase)

  /** Tasks in launch order, and the map entry: the tail's index, if there is one. */
  datatype Chain = Chain(links: seq<Link>, tail: Option<nat>)

  const EMPTY_CHAIN := Chain([], None)

  function Launch(c: Chain): Chain {
    Chain(c.links + [Link(c.tail, Waiting)], Some(|c.links|))
  }

  /** The task's own await of its prior is over. */
  predicate Ready(c: Chain, k: nat) {
    && k < |c.links| && c.links[k].phase == Waiting
    && (c.links[k].prior.Some? ==>
          c.links[k].prior.value < |c.links| && c.links[c.links[k].prior.value].phase == Settled)
  }

  function SetPhase(c: Chain, k: nat, p: Phase): Chain
    requires k < |c.links|
  {
    c.(links := c.links[k := c.links[k].(phase := p)])
  }

  /** The `finally` after settling: drop the entry only if it is still this task's. */
  function Clear(c: Chain, k: nat): Chain {
    if k < |c.links| && c.links[k].phase == Settled && c.tail == Some(k) then c.(tail := None) else c
  }

  ghost predicate SettledBelow(c: Chain, k: nat) {
    forall j :: 0 <= j < k && j < |c.links| ==> c.links[j].phase == Settled
  }

  ghost predicate Inv(c: Chain) {
    && (c.tail.Some? ==> c.tail.value + 1 == |c.links|)
    && (c.tail.None? ==> SettledBelow(c, |c.links|))
    && (forall k :: 0 <= k < |c.links| && c.links[k].prior.Some? ==> c.links[k].prior.value + 1 == k)
    && (forall k :: 0 <= k < |c.links| && c.links[k].prior.None? ==> SettledBelow(c, k))
    && (forall k :: 0 <= k < |c.links| && c.links[k].phase != Waiting ==> SettledBelow(c, k))
  }

  lemma LaunchKeepsInv(c: Chain)
    requires Inv(c)
    ensures Inv(Launch(c))
  {
    var c' := Launch(c);
    forall k | 0 <= k < |c'.links| && (c'.links[k].prior.None? || c'.links[k].phase != Waiting)
      ensures SettledBelow(c', k)
    {
      if k < |c.links| {
        assert SettledBelow(c, k);
      } else {
        assert SettledBelow(c, |c.links|);
      }
    }
  }

  /** A ready task finds every earlier one settled. */
  lemma ReadyMeansAlone(c: Chain, k: nat)
    requires Inv(c) && Ready(c, k)
    ensures SettledBelow(c, k)
  {
    if c.links[k].prior.Some? {
      assert SettledBelow(c, k - 1);
    }
  }

  /** The chain is a queue: a task is ready exactly when it waits and all before it have settled,
      whichever entries were cleared meanwhile. */
  lemma ReadyIffFirstInLine(c: Chain, k: nat)
    requires Inv(c)
    ensures Ready(c, k) <==>
            && k < |c.links| && c.links[k].phase == Waiting
            && forall j :: 0 <= j < k ==> c.links[j].phase == Settled
  {
    if Ready(c, k) {
      ReadyMeansAlone(c, k);
    }
  }

  /** Starting a ready task, or settling one that is ready or running, keeps the chain. */
  lemma AdvanceKeepsInv(c: Chain, k: nat, p: Phase)
    requires Inv(c) && p != Waiting
    requires Ready(c, k) || (k < |c.links| && c.links[k].phase == Running && p == Settled)
    ensures Inv(SetPhase(c, k, p))
  {
    var c' := SetPhase(c, k, p);
    if Ready(c, k) {
      ReadyMeansAlone(c, k);
    }
    assert SettledBelow(c, k);
    forall j | 0 <= j < |c'.links| && (c'.links[j].prior.None? || c'.links[j].phase != Waiting)
      ensures SettledBelow(c', j)
    {
      assert j == k || SettledBelow(c, j);
    }
  }

  lemma ClearKeepsInv(c: Chain, k: nat)
    requires Inv(c)
    ensures Inv(Clear(c, k))
  {
    if Clear(c, k) != c {
      assert SettledBelow(c, k);
      assert SettledBelow(Clear(c, k), |c.links|);
      forall j | 0 <= j < |c.links| && (c.links[j].prior.None? || c.links[j].phase != Waiting)
        ensures SettledBelow(Clear(c, k), j)
      {
        assert SettledBelow(c, j);
      }
    }
  }

  /** One at a time, in launch order: when a task is running, every earlier one has settled
      and every later one is still waiting. */
  lemma OneAtATimeInOrder(c: Chain, k: nat)
    requires Inv(c) && k < |c.links| && c.links[k].phase == Running
    ensures SettledBelow(c, k)
    ensures forall j :: k < j < |c.links| ==> c.links[j].phase == Waiting
  {
  }
}
