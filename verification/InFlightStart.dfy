/** How far the handover of a device can lag: exactly as far as the end notice or the loss of the connection is in flight. */
module InFlightStart {
  import opened Common
  import opened DevicesRepository
  import opened StreamsRelay
  import opened AgentsGateway
  import opened Server
  import opened ServerInvariant
  import opened StreamDemandGate
  import opened Farm
  import opened FarmInvariant
  import opened GhostInput
  import opened AgentLag
  import Exec = CommandExecutor

  /** A command of an occupation that is over can only start while the notice of its end is undelivered on the agent's
      connection, or while the agent has yet to notice that the connection is closed. */
  lemma StaleStartIsInFlight(states: seq<Farm>, steps: seq<Step>, own: Ownership, n: nat, a: AgentId, d: DeviceId, g: Generation)
    requires IsOwnedRun(states, steps, own) && n < |steps| && StartsCommand(states[n], steps[n], a, d, g)
    ensures var f := states[n];
            || IsActive(f.server, d, g)
            || OccupancyEnded(d, g) in Inbox(f, a)
            || (f.agents[a].link.Some? && f.agents[a].link.value !in f.server.gateway.open)
  {
    AgentLagsByWhatIsInFlight(states, steps, own, n, a, d, g);
  }

  /** The server's end of the agent's connection is open. */
  ghost predicate Linked(f: Farm, a: AgentId) {
    a in f.agents && f.agents[a].link.Some? && f.agents[a].link.value in f.server.gateway.open
  }

  /** Exactly when the promise is kept: in owned runs, at a start on an agent whose connection is open, the command's
      occupation is over on the server if and only if its end notice is waiting in the agent's inbox. */
  lemma StaleStartIffNoticeInFlight(states: seq<Farm>, steps: seq<Step>, own: Ownership, n: nat, a: AgentId, d: DeviceId, g: Generation)
    requires IsOwnedRun(states, steps, own) && n < |steps| && StartsCommand(states[n], steps[n], a, d, g)
    requires Linked(states[n], a)
    ensures !IsActive(states[n].server, d, g) <==> OccupancyEnded(d, g) in Inbox(states[n], a)
  {
    StaleStartIsInFlight(states, steps, own, n, a, d, g);
    RunInv(states, steps, n);
    NoticeMeansOver(states[n], a, d, g);
  }

  lemma NoticeMeansOver(f: Farm, a: AgentId, d: DeviceId, g: Generation)
    requires FarmInv(f)
    ensures OccupancyEnded(d, g) in Inbox(f, a) ==> !IsActive(f.server, d, g)
  {
    if OccupancyEnded(d, g) in Inbox(f, a) {
      var w := Inbox(f, a);
      assert ChannelInv(f.server, w);
      var i :| 0 <= i < |w| && w[i] == OccupancyEnded(d, g);
      assert MessageInv(f.server, w[i]);
      assert d in f.server.devices ==> OccupantInv(f.server, d);
    }
  }

  const DEVICE := DeviceId("d")
  const AGENT := AgentId("a")
  const TAP := Action("tap", "")
  const ANYTHING := OccupyFilter(None, None, [])
  const ITEM := RegisterInput(DEVICE, DeviceInfo("", "", "", []))

  function Row(occupantId: Option<Generation>): Device {
    var at := if occupantId.Some? then Some(0) else None;
    Device(ITEM.info, true, Some(AGENT), occupantId, at, Some(0), at)
  }

  function ServerWith(occupantId: Option<Generation>, issued: seq<DeviceId>, gateway: GatewayState, ended: seq<EndedEvent>): ServerState {
    ServerState(map[DEVICE := Row(occupantId)], RelayState(map[], []), gateway, issued, ended, {0})
  }

  function GatewayWith(answers: map<RequestId, seq<CommandOutcome>>, isPending: bool, wire: seq<ServerMessage>): GatewayState {
    GatewayState(map[AGENT := 0], map[0 := AGENT], {0}, map[AGENT := LEGACY_ACTION_KINDS],
                 if isPending then map[0 := PendingCommand(AGENT, DEVICE, 0)] else map[], if isPending then {0} else {}, answers,
                 map[0 := wire])
  }

  function FarmWith(server: ServerState, executor: Exec.ExecutorState, gate: GateState): Farm {
    Farm(server, map[AGENT := Agent(Some(0), executor, gate)])
  }

  const COMMAND := Command(0, DEVICE, 0, TAP)
  const OPENED := GatewayState(map[AGENT := 0], map[0 := AGENT], {0}, map[], map[], {}, map[], map[0 := []])
  const QUEUED := Exec.Accept(Exec.IDLE, DEVICE, 0, 0, 0)
  const SHUT := GateState(true, {})
  const ENDED := EndedEvent(DEVICE, 0, Released)

  const NOTICE := OccupancyEnded(DEVICE, 0)
  const OVER: map<RequestId, seq<CommandOutcome>> := map[0 := [AgentsGateway.OccupationEnded]]

  // Register, occupy, command, deliver, release, occupy again; then the old command's turn comes.

  const F0 := Farm(EMPTY_SERVER, map[AGENT := NEW_AGENT])
  const S0 := AgentOpens(AGENT, 0)
  const F1 := FarmWith(EMPTY_SERVER.(gateway := OPENED), Exec.IDLE, OPEN_GATE)
  const S1 := ReceivesRegister(0, [ITEM], None, 0)
  const F2 := FarmWith(ServerWith(None, [], GatewayWith(map[], false, [StreamDemand({})]), []), Exec.IDLE, OPEN_GATE)
  const S2 := Occupies(DEVICE, ANYTHING, 0)
  const F3 := FarmWith(ServerWith(Some(0), [DEVICE], GatewayWith(map[], false, [StreamDemand({})]), []), Exec.IDLE, OPEN_GATE)
  const S3 := Executes(DEVICE, 0, TAP, 0, 0)
  const F4 := FarmWith(ServerWith(Some(0), [DEVICE], GatewayWith(map[0 := []], true, [StreamDemand({}), COMMAND]), []), Exec.IDLE, OPEN_GATE)
  const S4 := Delivers(AGENT, true, true, 0)
  const F5 := FarmWith(ServerWith(Some(0), [DEVICE], GatewayWith(map[0 := []], true, [COMMAND]), []), Exec.IDLE, SHUT)
  const F6 := FarmWith(ServerWith(Some(0), [DEVICE], GatewayWith(map[0 := []], true, []), []), QUEUED, SHUT)
  const S6 := Releases(DEVICE, 0)
  const F7 := FarmWith(ServerWith(None, [DEVICE], GatewayWith(OVER, false, [NOTICE]), [ENDED]), QUEUED, SHUT)
  const F8 := FarmWith(ServerWith(Some(1), [DEVICE, DEVICE], GatewayWith(OVER, false, [NOTICE]), [ENDED]), QUEUED, SHUT)
  const S8 := QueueTurn(AGENT, DEVICE, 0)
  const F9 := FarmWith(ServerWith(Some(1), [DEVICE, DEVICE], GatewayWith(OVER, false, [NOTICE]), [ENDED]), Exec.TakeTurn(QUEUED, DEVICE, 0), SHUT)

  ghost predicate Leads(f: Farm, step: Step, g: Farm) {
    Enabled(f, step) && Apply(f, step) == g
  }

  lemma Opens()
    ensures Leads(F0, S0, F1)
  {
  }

  lemma Registers()
    ensures Leads(F1, S1, F2)
  {
    var t, empty: Table := ApplyToServer(F1.server, S1), map[];
    assert [ITEM][..0] == [] && UpsertMany(empty, [], AGENT, 0) == empty;
    assert UpsertMany(empty, [ITEM], AGENT, 0) == Upsert(empty, ITEM, AGENT, 0);
    assert t.devices == map[DEVICE := Row(None)];
    assert Demand(t, AGENT) == {};
    assert t.gateway.wire[0] == [StreamDemand({})] && t.gateway.wire.Keys == {0};
    assert t.gateway.wire == F2.server.gateway.wire && t.registered == {0};
  }

  lemma OccupiesFirst()
    ensures Leads(F2, S2, F3)
  {
  }

  lemma Sends()
    ensures Leads(F3, S3, F4)
  {
    var t := ApplyToServer(F3.server, S3);
    assert t.devices == F4.server.devices;
    assert t.gateway.pending == F4.server.gateway.pending && t.gateway.timers == {0};
    assert t.gateway.wire[0] == [StreamDemand({}), COMMAND] && t.gateway.wire.Keys == {0};
    assert t.gateway.wire == F4.server.gateway.wire;
  }

  lemma DeliversSnapshot()
    ensures Leads(F4, S4, F5)
  {
  }

  lemma DeliversCommand()
    ensures Leads(F5, S4, F6)
  {
  }

  lemma ReleasesIt()
    ensures Leads(F6, S6, F7)
  {
    var t := ApplyToServer(F6.server, S6);
    assert t.devices == F7.server.devices;
    assert PendingOfOccupation(F6.server.gateway, DEVICE, 0) == {0};
    assert t.gateway.pending == map[] && t.gateway.timers == {};
    assert t.gateway.answers[0] == [AgentsGateway.OccupationEnded] && t.gateway.answers.Keys == {0};
    assert t.gateway.wire[0] == [NOTICE] && t.gateway.wire.Keys == {0};
    assert t.gateway.answers == OVER;
    assert t.gateway.wire == F7.server.gateway.wire && t.ended == [ENDED];
  }

  lemma OccupiesAgain()
    ensures Leads(F7, S2, F8)
  {
  }

  lemma TakesItsTurn()
    ensures Leads(F8, S8, F9)
    ensures StartsCommand(F8, S8, AGENT, DEVICE, 0) && OccupantOf(F8.server.devices, DEVICE) == Some(1)
  {
  }

  ghost predicate IsOldStart(states: seq<Farm>, steps: seq<Step>, n: nat, a: AgentId, d: DeviceId, g: Generation, h: Generation) {
    && n < |steps| && n < |states| && StartsCommand(states[n], steps[n], a, d, g)
    && OccupantOf(states[n].server.devices, d) == Some(h) && g != h
  }

  /** So the stronger claim, that no command of an earlier occupation starts while the device has a new occupant, is
      false: here is a run in which it does. */
  lemma OldCommandMayStart() returns (states: seq<Farm>, steps: seq<Step>)
    ensures IsRun(states, steps) && IsOldStart(states, steps, 8, AGENT, DEVICE, 0, 1)
  {
    hide Apply, Enabled, StartsCommand;
    states := [F0, F1, F2, F3, F4, F5, F6, F7, F8, F9];
    steps := [S0, S1, S2, S3, S4, S4, S6, S2, S8];
    Opens();
    Registers();
    OccupiesFirst();
    Sends();
    DeliversSnapshot();
    DeliversCommand();
    ReleasesIt();
    OccupiesAgain();
    TakesItsTurn();
    forall i | 0 <= i < |steps| ensures Leads(states[i], steps[i], states[i + 1]) {}
  }
}
