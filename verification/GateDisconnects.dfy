/**
 When a disconnect is final. A connection that the gate has not accepted yet can
 be named in a disconnect and still be accepted afterwards; this module says
 exactly when, over every continuation of every history.
 */
module GateDisconnects {
  import opened ServingAuth
  import opened GateHistories
  import R = Runs

  /** The j-th event installs over c, or accepts an invocation on a live-only authorization that came over c. */
  predicate UsedAt(cfg: GateConfig, states: seq<GateState>, events: seq<Event>, j: nat, c: Connection)
    requires j < |events| <= |states|
  {
    || (&& events[j].Installing? && events[j].connection == c
        && Install(cfg, states[j], c, events[j].authorization, events[j].now).1 == Ok)
    || LiveAcceptedAt(states, events, j, c)
  }

  predicate LiveAcceptedAt(states: seq<GateState>, events: seq<Event>, j: nat, c: Connection)
    requires j < |events| <= |states|
  {
    Accepted(states, events, j)
    && var r := states[j].authorizations[events[j].fence.assignment.assignmentId];
       r.authorization.lifetime == LiveOnly && r.connection == c
  }

  /** In no continuation of this history is c used any more. */
  ghost predicate RuledOut(cfg: GateConfig, elapsed: int, states: seq<GateState>, events: seq<Event>, c: Connection) {
    forall longer: seq<GateState>, more: seq<Event>, j: nat ::
      IsHistory(cfg, elapsed, longer, more) && states <= longer && events <= more && |events| <= j < |more|
      ==> !UsedAt(cfg, longer, more, j, c)
  }

  /** The gate's configuration admits an authorization at all. */
  predicate CanInstall(cfg: GateConfig) {
    ValidId(cfg.workerId) && ValidId(cfg.bootId) && cfg.maxAuthorizations > 0
  }

  /** What a caller can check before the disconnect: c is ahead of the gate's session and not behind its Leader. */
  predicate MayReturn(cfg: GateConfig, g: GateState, c: Connection) {
    CanInstall(cfg) && g.healthy && ValidConnection(c) && c.sessionEpoch > g.session && c.discoveryEpoch >= g.discovery
  }

  // ---------- out for good ----------

  /** c is down, and either seen, or older than the Leader, or no connection at all. */
  predicate Out(g: GateState, c: Connection) {
    g.control != Control(c, true) && (c.sessionEpoch <= g.session || c.discoveryEpoch < g.discovery || !ValidConnection(c))
  }

  ghost function OutStates(c: Connection): iset<GateState> {
    iset g: GateState | Out(g, c)
  }

  /** No record was ever stored and none ever will be. */
  ghost function EmptyStates(): iset<GateState> {
    iset g: GateState | g.assignments == map[] && g.authorizations == map[]
  }

  lemma OutIsUnused(cfg: GateConfig, states: seq<GateState>, events: seq<Event>, j: nat, c: Connection)
    requires j < |events| <= |states| && (Out(states[j], c) || !states[j].healthy)
    ensures !UsedAt(cfg, states, events, j, c)
  {
  }

  lemma NothingInstalls(
      cfg: GateConfig, elapsed: int, states: seq<GateState>, events: seq<Event>, j: nat, c: Connection)
    requires IsHistory(cfg, elapsed, states, events) && j < |events| && !CanInstall(cfg)
    ensures !UsedAt(cfg, states, events, j, c)
  {
    R.StaysFrom(NewGate(elapsed), Moves(cfg), EmptyStates(), states, events, 0, j);
  }

  lemma OtherwiseRuledOut(
      cfg: GateConfig, elapsed: int, states: seq<GateState>, events: seq<Event>, i: nat, c: Connection, j: nat)
    requires IsHistory(cfg, elapsed, states, events) && i < j < |events|
    requires events[i] == Disconnecting(c) && !MayReturn(cfg, states[i], c)
    ensures !UsedAt(cfg, states, events, j, c)
  {
    OneStep(cfg, elapsed, states, events, i);
    if !CanInstall(cfg) {
      NothingInstalls(cfg, elapsed, states, events, j, c);
    } else {
      if states[i].healthy {
        R.StaysFrom(NewGate(elapsed), Moves(cfg), OutStates(c), states, events, i + 1, j);
      } else {
        MarksNeverFall(cfg, elapsed, states, events, i, j);
      }
      OutIsUnused(cfg, states, events, j, c);
    }
  }

  // ---------- back again ----------

  function Digest(): (d: string)
    ensures ValidDigest(d)
  {
    var d := "sha256:" + seq(64, i => '0');
    assert d[..7] == "sha256:";
    d
  }

  function LiveFence(cfg: GateConfig, c: Connection): Fence {
    Fence(Identity(Session(cfg.workerId, cfg.bootId, c.sessionEpoch), "a", "v", 1, 1, Digest(), Normal), c.discoveryEpoch)
  }

  function LiveAuthorization(cfg: GateConfig, c: Connection): Authorization {
    Authorization(LiveFence(cfg, c), LiveOnly, 0)
  }

  lemma LiveIsValid(cfg: GateConfig, c: Connection)
    requires CanInstall(cfg) && ValidConnection(c)
    ensures ValidAuthorization(LiveAuthorization(cfg, c), cfg.maxTtl)
  {
    assert ValidId("a") && ValidId("v");
  }

  /** Accepting c, installing a live-only authorization over it and checking that fence. */
  function Comeback(cfg: GateConfig, g: GateState, c: Connection): seq<Event> {
    [Accepting(c), Installing(c, LiveAuthorization(cfg, c), g.lastElapsed), Authorizing(LiveFence(cfg, c), g.lastElapsed)]
  }

  lemma ComebackWorks(cfg: GateConfig, g: GateState, c: Connection)
    requires MayReturn(cfg, g, c)
    ensures var g1 := AcceptControl(g, c).0;
            var g2 := Install(cfg, g1, c, LiveAuthorization(cfg, c), g.lastElapsed).0;
      && AcceptControl(g, c).1 == Ok && Install(cfg, g1, c, LiveAuthorization(cfg, c), g.lastElapsed).1 == Ok
      && AuthorizeSync(g2, LiveFence(cfg, c), g.lastElapsed).1 == Ok
      && "a" in g2.authorizations && g2.authorizations["a"] == Record(LiveAuthorization(cfg, c), c, g.lastElapsed)
  {
    LiveIsValid(cfg, c);
  }

  /** One more event of a history. */
  lemma Extend(cfg: GateConfig, elapsed: int, states: seq<GateState>, events: seq<Event>, e: Event)
    requires IsHistory(cfg, elapsed, states, events)
    ensures IsHistory(cfg, elapsed, states + [After(cfg, states[|events|], e)], events + [e])
  {
    R.Extend(NewGate(elapsed), Moves(cfg), states, events, e, After(cfg, states[|events|], e));
  }

  /**
   A history whose last disconnect named a connection that may return goes on to accept a live-only invocation
   over it.
   */
  lemma ComesBack(cfg: GateConfig, elapsed: int, states: seq<GateState>, events: seq<Event>, c: Connection)
      returns (longer: seq<GateState>, more: seq<Event>)
    requires IsHistory(cfg, elapsed, states, events) && MayReturn(cfg, states[|events|], c)
    ensures IsHistory(cfg, elapsed, longer, more) && states <= longer
    ensures more == events + Comeback(cfg, states[|events|], c)
    ensures LiveAcceptedAt(longer, more, |events| + 2, c)
  {
    var g := states[|events|];
    var e := Comeback(cfg, g, c);
    ComebackWorks(cfg, g, c);
    longer, more := states, events;
    Extend(cfg, elapsed, longer, more, e[0]);
    longer, more := longer + [After(cfg, g, e[0])], more + [e[0]];
    Extend(cfg, elapsed, longer, more, e[1]);
    longer, more := longer + [After(cfg, longer[|more|], e[1])], more + [e[1]];
    Extend(cfg, elapsed, longer, more, e[2]);
    longer, more := longer + [After(cfg, longer[|more|], e[2])], more + [e[2]];
    assert more == events + e;
  }

  // ---------- exactly when ----------

  /** After a disconnect of c, no continuation ever uses c again, exactly unless c may return. */
  lemma DisconnectIsFinalExactlyWhen(
      cfg: GateConfig, elapsed: int, states: seq<GateState>, events: seq<Event>, c: Connection)
    requires IsHistory(cfg, elapsed, states, events) && events != [] && events[|events| - 1] == Disconnecting(c)
    ensures RuledOut(cfg, elapsed, states, events, c) <==> !MayReturn(cfg, states[|events| - 1], c)
  {
    var n := |events| - 1;
    if MayReturn(cfg, states[n], c) {
      OneStep(cfg, elapsed, states, events, n);
      var longer, more := ComesBack(cfg, elapsed, states, events, c);
      assert UsedAt(cfg, longer, more, |events| + 2, c);
    } else {
      forall longer: seq<GateState>, more: seq<Event>, j: nat
        | IsHistory(cfg, elapsed, longer, more) && states <= longer && events <= more && |events| <= j < |more|
        ensures !UsedAt(cfg, longer, more, j, c)
      {
        assert longer[n] == states[n] && more[n] == events[n];
        OtherwiseRuledOut(cfg, elapsed, longer, more, n, c, j);
      }
    }
  }

  /** The shortest such history: a first connection is disconnected before it is accepted, and then serves. */
  lemma DisconnectedConnectionServes() returns (cfg: GateConfig, states: seq<GateState>, events: seq<Event>)
    ensures IsHistory(cfg, 0, states, events) && |events| == 4 && CanInstall(cfg)
    ensures events[..2] == [Disconnecting(Connection("c", 1, 1)), Accepting(Connection("c", 1, 1))]
    ensures LiveAcceptedAt(states, events, 3, Connection("c", 1, 1))
  {
    var c := Connection("c", 1, 1);
    cfg := GateConfig("w", "b", 1, 1);
    assert ValidId("w") && ValidId("b") && ValidId("c");
    assert IsHistory(cfg, 0, [NewGate(0)], []);
    Extend(cfg, 0, [NewGate(0)], [], Disconnecting(c));
    var g := After(cfg, NewGate(0), Disconnecting(c));
    states, events := ComesBack(cfg, 0, [NewGate(0), g], [Disconnecting(c)], c);
  }
}
