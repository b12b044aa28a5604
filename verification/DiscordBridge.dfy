/** The bridge as objects: the registered embodiment is an object whose `holders` and
    `justified` are mutated by whoever holds a reference to it. Each method is one stretch
    of code between two awaits, and does what the corresponding step does. */
module DiscordBridge {
  import opened Wrappers
  import opened SerialChain
  import B = Bridge

  class ActiveEmbodiment {
    const connection: nat
    var holders: int
    var justified: bool

    constructor (connection: nat, justified: bool)
      ensures this.connection == connection && holders == 0 && this.justified == justified
    {
      this.connection, holders, this.justified := connection, 0, justified;
    }
  }

  class CompanionBridge {
    var active: ActiveEmbodiment?
    var chain: Chain
    var attempts: seq<B.Attempt>
    var conns: nat
    var flagged: set<nat>
    /** Every embodiment ever registered: late callers still hold references to them. */
    var embodiments: map<nat, ActiveEmbodiment>
    var advances: map<nat, nat>
    ghost var superseded: set<nat>
    ghost var dropped: set<nat>
    ghost var droppedEarly: set<nat>

    ghost predicate Valid()
      reads this, embodiments.Values
    {
      && (forall c :: c in embodiments ==> embodiments[c].connection == c)
      && (active != null ==> active.connection in embodiments && embodiments[active.connection] == active)
    }

    ghost function View(): B.State
      reads this, embodiments.Values
    {
      B.State(chain, attempts, conns, if active == null then None else Some(active.connection),
              map c | c in embodiments :: B.Embodiment(embodiments[c].holders, embodiments[c].justified),
              flagged, advances, superseded, dropped, droppedEarly)
    }

    constructor ()
      ensures Valid() && View() == B.IDLE
    {
      active, chain, attempts, conns, flagged := null, EMPTY_CHAIN, [], 0, {};
      embodiments, advances := map[], map[];
      superseded, dropped, droppedEarly := {}, {}, {};
    }

    method Establish(persist: bool) returns (attempt: nat)
      requires Valid()
      modifies this
      ensures Valid() && View() == B.Step(old(View()), B.Establish(persist))
      ensures attempt == old(|attempts|)
    {
      attempt := |attempts|;
      chain := Launch(chain);
      attempts := attempts + [B.Attempt(persist, None, false, None)];
    }

    /** The attempt's turn has come: reuse the registered embodiment, or dial. */
    method Proceed(k: nat)
      requires Valid() && B.Enabled(View(), B.Proceed(k))
      modifies this, active
      ensures Valid() && View() == B.Step(old(View()), B.Proceed(k))
    {
      if active != null {
        chain := SetPhase(chain, k, Settled);
        attempts := attempts[k := attempts[k].(result := Some(active.connection))];
        if attempts[k].persist {
          active.justified := true;
        }
      } else {
        chain := SetPhase(chain, k, Running);
        attempts := attempts[k := attempts[k].(conn := Some(conns))];
        conns := conns + 1;
      }
    }

    method OnConnected(k: nat)
      requires Valid() && B.Enabled(View(), B.Connected(k))
      modifies this`attempts
      ensures Valid() && View() == B.Step(old(View()), B.Connected(k))
    {
      attempts := attempts[k := attempts[k].(resolved := true)];
    }

    method OnConnectFailed(k: nat)
      requires Valid() && B.Enabled(View(), B.ConnectFailed(k))
      modifies this`attempts, this`chain
      ensures Valid() && View() == B.Step(old(View()), B.ConnectFailed(k))
    {
      chain := SetPhase(chain, k, Settled);
      attempts := attempts[k := attempts[k].(result := None)];
    }

    /** After `connect()`: give up a connection flagged as superseded, else register it. */
    method Register(k: nat)
      requires Valid() && B.Enabled(View(), B.Register(k))
      modifies this
      ensures Valid() && View() == B.Step(old(View()), B.Register(k))
    {
      var conn := attempts[k].conn.value;
      if conn in flagged {
        chain := SetPhase(chain, k, Settled);
        attempts := attempts[k := attempts[k].(result := None)];
      } else {
        Admit(k, conn);
      }
    }

    method Admit(k: nat, conn: nat)
      requires Valid() && B.Enabled(View(), B.Register(k)) && attempts[k].conn == Some(conn) && conn !in flagged
      modifies this
      ensures Valid() && View() == B.Step(old(View()), B.Register(k))
    {
      ghost var s := View();
      var persist := attempts[k].persist;
      var embodiment := new ActiveEmbodiment(conn, persist);
      AdmitAs(k, embodiment);
      assert View().embodiments == s.embodiments[conn := B.Embodiment(0, persist)];
      B.AdmitInOne(s, k, conn);
    }

    /** `active.set` and the attempt's outcome. */
    method AdmitAs(k: nat, embodiment: ActiveEmbodiment)
      requires k < |attempts| == |chain.links|
      modifies this`chain, this`active, this`embodiments, this`attempts
      ensures active == embodiment && embodiments == old(embodiments)[embodiment.connection := embodiment]
      ensures chain == SetPhase(old(chain), k, Settled)
      ensures attempts == old(attempts)[k := old(attempts)[k].(result := Some(embodiment.connection))]
    {
      chain := SetPhase(chain, k, Settled);
      active := embodiment;
      embodiments := embodiments[embodiment.connection := embodiment];
      attempts := attempts[k := attempts[k].(result := Some(embodiment.connection))];
    }

    method Forget(k: nat)
      requires Valid()
      modifies this`chain
      ensures Valid() && View() == B.Step(old(View()), B.Forget(k))
    {
      chain := Clear(chain, k);
    }

    method Teardown(conn: nat)
      modifies this`active
      ensures active == if old(active) != null && old(active).connection == conn then null else old(active)
    {
      if active == null || active.connection != conn {
        return;
      }
      active := null;
    }

    method OnSuperseded(conn: nat)
      requires Valid() && conn < conns
      modifies this
      ensures Valid() && View() == B.Step(old(View()), B.OnSuperseded(conn))
    {
      superseded := superseded + {conn};
      if active != null {
        Teardown(conn);
      } else {
        flagged := flagged + {conn};
      }
    }

    method OnClosed(conn: nat)
      requires Valid() && conn < conns
      modifies this
      ensures Valid() && View() == B.Step(old(View()), B.OnClosed(conn))
    {
      ghost var seats := View().embodiments;
      dropped := dropped + {conn};
      if conn !in embodiments {
        droppedEarly := droppedEarly + {conn};
      }
      if active != null {
        Teardown(conn);
      }
      assert View().embodiments == seats;
    }

    /** A trigger starts advancing its mission over an embodiment it holds. */
    method BeginAdvance(task: nat, embodiment: ActiveEmbodiment)
      requires Valid() && task !in advances
      requires embodiment.connection in embodiments && embodiments[embodiment.connection] == embodiment
      modifies this`advances, embodiment
      ensures Valid() && View() == B.Step(old(View()), B.Advance(task, embodiment.connection))
    {
      ghost var seats := View().embodiments;
      embodiment.holders := embodiment.holders + 1;
      advances := advances[task := embodiment.connection];
      assert View().embodiments
          == seats[embodiment.connection := B.Embodiment(embodiment.holders, embodiment.justified)];
    }

    /** One advance leaves the embodiment it was holding. */
    method Leave(task: nat) returns (embodiment: ActiveEmbodiment)
      requires Valid() && task in advances && advances[task] in embodiments
      modifies this`advances, embodiments[advances[task]]
      ensures Valid() && View() == B.EndAdvance(old(View()), task)
      ensures embodiment == embodiments[old(advances[task])] && embodiment.connection == old(advances[task])
    {
      ghost var seats := View().embodiments;
      embodiment := embodiments[advances[task]];
      embodiment.holders := embodiment.holders - 1;
      advances := advances - {task};
      assert View().embodiments
          == seats[embodiment.connection := B.Embodiment(embodiment.holders, embodiment.justified)];
    }

    method OnAdvanceFailed(task: nat)
      requires Valid() && task in advances && advances[task] in embodiments
      modifies this`advances, embodiments[advances[task]]
      ensures Valid() && View() == B.Step(old(View()), B.AdvanceFailed(task))
    {
      var _ := Leave(task);
    }

    method OnAdvanceLive(task: nat)
      requires Valid() && task in advances && advances[task] in embodiments
      modifies this`advances, embodiments[advances[task]]
      ensures Valid() && View() == B.Step(old(View()), B.AdvanceLive(task))
    {
      var embodiment := Leave(task);
      ghost var seats := View().embodiments;
      embodiment.justified := true;
      assert View().embodiments == seats[embodiment.connection := B.Embodiment(embodiment.holders, true)];
    }

    /** Only a skip may retract, and only as the last one out of an unjustified embodiment. */
    method OnAdvanceSkipped(task: nat)
      requires Valid() && task in advances && advances[task] in embodiments
      modifies this, embodiments[advances[task]]
      ensures Valid() && View() == B.Step(old(View()), B.AdvanceSkipped(task))
    {
      var embodiment := Leave(task);
      if embodiment.holders == 0 && !embodiment.justified {
        Teardown(embodiment.connection);
      }
    }
  }
}
