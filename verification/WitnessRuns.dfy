/** Two runs of one agent with one device: a command that comes back after a lost connection, and one whose result arrives. */
module WitnessRuns {
  import opened Common
  import opened DevicesRepository
  import opened StreamsRelay
  import opened AgentsGateway
  import opened Server
  import opened StreamDemandGate
  import opened Farm
  import opened FarmInvariant
  import opened Requests
  import opened ResultPath
  import opened InFlightStart
  import Exec = CommandExecutor

  // A command is queued, the connection is lost, the agent reconnects and registers, the same occupant sends a second
  // command; then the turn of the first one comes.

  const LOST: map<RequestId, seq<CommandOutcome>> := map[0 := [AgentDisconnected]]
  const FORGOTTEN := Exec.RevokeAll(QUEUED)
  const SECOND := Command(1, DEVICE, 0, TAP)
  const REVIVED := Exec.Accept(FORGOTTEN, DEVICE, 1, 0, 0)

  function RowOf(isOnline: bool): Device {
    Device(ITEM.info, isOnline, if isOnline then Some(AGENT) else None, Some(0), Some(0), Some(0), Some(0))
  }

  function Occupied(isOnline: bool, gateway: GatewayState, registered: set<Connection>): ServerState {
    ServerState(map[DEVICE := RowOf(isOnline)], RelayState(map[], []), gateway, [DEVICE], [], registered)
  }

  const DOWN := GatewayState(map[], map[0 := AGENT], {}, map[], map[], {}, LOST, map[0 := []])
  const AGAIN := GatewayState(map[AGENT := 1], map[0 := AGENT, 1 := AGENT], {1}, map[], map[], {}, LOST, map[0 := [], 1 := []])

  function Listed(isPending: bool, wire: seq<ServerMessage>): GatewayState {
    AGAIN.(capabilities := map[AGENT := LEGACY_ACTION_KINDS],
           pending := if isPending then map[1 := PendingCommand(AGENT, DEVICE, 0)] else map[],
           timers := if isPending then {1} else {},
           answers := if isPending then LOST[1 := []] else LOST,
           wire := map[0 := [], 1 := wire])
  }

  const R6 := ServerSeesClose(0)
  const G7 := FarmWith(Occupied(false, DOWN, {0}), QUEUED, SHUT)
  const R7 := AgentSeesClose(AGENT)
  const G8 := Farm(Occupied(false, DOWN, {0}), map[AGENT := Agent(None, FORGOTTEN, OPEN_GATE)])
  const R8 := AgentOpens(AGENT, 1)
  const G9 := FarmOn1(Occupied(false, AGAIN, {0}), FORGOTTEN, OPEN_GATE)
  const R9 := ReceivesRegister(1, [ITEM], None, 0)
  const G10 := FarmOn1(Occupied(true, Listed(false, [StreamDemand({})]), {0, 1}), FORGOTTEN, OPEN_GATE)
  const R10 := Executes(DEVICE, 0, TAP, 1, 0)
  const G11 := FarmOn1(Occupied(true, Listed(true, [StreamDemand({}), SECOND]), {0, 1}), FORGOTTEN, OPEN_GATE)
  const G12 := FarmOn1(Occupied(true, Listed(true, [SECOND]), {0, 1}), FORGOTTEN, SHUT)
  const G13 := FarmOn1(Occupied(true, Listed(true, []), {0, 1}), REVIVED, SHUT)
  const G14 := FarmOn1(Occupied(true, Listed(true, []), {0, 1}), Exec.TakeTurn(REVIVED, DEVICE, 0), SHUT)

  function FarmOn1(server: ServerState, executor: Exec.ExecutorState, gate: GateState): Farm {
    Farm(server, map[AGENT := Agent(Some(1), executor, gate)])
  }

  lemma ServerLeads(f: Farm, step: Step, s: ServerState)
    requires IsServerStep(step) && ServerEnabled(f.server, step) && ApplyToServer(f.server, step) == s
    ensures Leads(f, step, f.(server := s))
  {
    hide ApplyToServer, ServerEnabled;
  }

  lemma LosesIt()
    ensures Leads(F6, R6, G7)
  {
    GatewayLoses();
    ServerLeads(F6, R6, G7.server);
  }

  lemma GatewayLoses()
    ensures ApplyToServer(F6.server, R6) == G7.server
  {
    var t := ApplyToServer(F6.server, R6);
    assert PendingOfAgent(F6.server.gateway, AGENT) == {0};
    assert t.gateway.pending == map[] && t.gateway.timers == {};
    assert t.gateway.answers[0] == [AgentDisconnected] && t.gateway.answers.Keys == {0};
    assert t.gateway.answers == LOST;
    assert t.gateway.sockets == map[] && t.gateway.capabilities == map[] && t.gateway.open == {};
    assert t.devices == map[DEVICE := RowOf(false)];
  }

  lemma SeesClose()
    ensures Leads(G7, R7, G8)
  {
  }

  lemma Reconnects()
    ensures Leads(G8, R8, G9)
  {
    assert Apply(G8, R8).server.gateway == AGAIN;
  }

  lemma RegistersAgain()
    ensures Leads(G9, R9, G10)
  {
    ServerRegistersAgain();
    ServerLeads(G9, R9, G10.server);
  }

  lemma ServerRegistersAgain()
    ensures ApplyToServer(G9.server, R9) == G10.server
  {
    var t, before := ApplyToServer(G9.server, R9), G9.server.devices;
    assert [ITEM][..0] == [] && UpsertMany(before, [], AGENT, 0) == before;
    assert UpsertMany(before, [ITEM], AGENT, 0) == Upsert(before, ITEM, AGENT, 0);
    assert t.devices == map[DEVICE := RowOf(true)];
    assert Demand(t, AGENT) == {};
    assert t.gateway.wire[0] == [] && t.gateway.wire[1] == [StreamDemand({})] && t.gateway.wire.Keys == {0, 1};
    assert t.gateway.wire == G10.server.gateway.wire && t.registered == {0, 1};
  }

  lemma SendsSecond()
    ensures Leads(G10, R10, G11)
  {
    ServerSendsSecond();
    ServerLeads(G10, R10, G11.server);
  }

  lemma ServerSendsSecond()
    ensures ApplyToServer(G10.server, R10) == G11.server
  {
    var t := ApplyToServer(G10.server, R10);
    assert t.devices == G11.server.devices;
    assert t.gateway.pending == G11.server.gateway.pending && t.gateway.timers == {1};
    assert t.gateway.answers == LOST[1 := []];
    assert t.gateway.wire[0] == [] && t.gateway.wire[1] == [StreamDemand({}), SECOND] && t.gateway.wire.Keys == {0, 1};
    assert t.gateway.wire == G11.server.gateway.wire;
  }

  lemma DeliversAgain()
    ensures Leads(G11, S4, G12)
  {
    assert Apply(G11, S4).server.gateway.wire == map[0 := [], 1 := [SECOND]];
  }

  lemma DeliversSecond()
    ensures Leads(G12, S4, G13)
  {
    assert Apply(G12, S4).server.gateway.wire == map[0 := [], 1 := []];
  }

  lemma StartsFirst()
    ensures Leads(G13, S8, G14) && StartsRequest(G13, S8, AGENT, DEVICE, 0, 0)
  {
  }

  ghost predicate IsAnswered(f: Farm, r: RequestId, outcome: CommandOutcome) {
    r in f.server.gateway.answers && f.server.gateway.answers[r] == [outcome]
  }

  lemma FirstIsAnswered()
    ensures IsAnswered(G7, 0, AgentDisconnected) && IsAnswered(G13, 0, AgentDisconnected)
  {
  }

  /** In this run the first command starts at step 13, after the server had answered it with AgentDisconnected at step 6 and
      the agent had seen the connection close at step 7. */
  lemma AnsweredCommandMayStart() returns (states: seq<Farm>, steps: seq<Step>)
    ensures IsRun(states, steps) && |steps| == 14
    ensures steps[7] == AgentSeesClose(AGENT) && StartsRequest(states[13], steps[13], AGENT, DEVICE, 0, 0)
    ensures IsAnswered(states[7], 0, AgentDisconnected) && IsAnswered(states[13], 0, AgentDisconnected)
  {
    hide *;
    states := [F0, F1, F2, F3, F4, F5, F6, G7, G8, G9, G10, G11, G12, G13, G14];
    steps := [S0, S1, S2, S3, S4, S4, R6, R7, R8, R9, R10, S4, S4, S8];
    Opens();
    Registers();
    OccupiesFirst();
    InFlightStart.Sends();
    DeliversSnapshot();
    DeliversCommand();
    LosesIt();
    SeesClose();
    Reconnects();
    RegistersAgain();
    SendsSecond();
    DeliversAgain();
    DeliversSecond();
    StartsFirst();
    FirstIsAnswered();
    StartsFresh();
    IsLinked(states, steps);
  }

  lemma StartsFresh()
    ensures Init(F0) && R7 == AgentSeesClose(AGENT)
  {
  }

  lemma IsLinked(states: seq<Farm>, steps: seq<Step>)
    requires |states| == |steps| + 1 && Init(states[0])
    requires forall i :: 0 <= i < |steps| ==> Leads(states[i], steps[i], states[i + 1])
    ensures IsRun(states, steps)
  {
    hide Apply, Enabled;
    forall i | 0 <= i < |steps| ensures Enabled(states[i], steps[i]) && states[i + 1] == Apply(states[i], steps[i]) {
      assert Leads(states[i], steps[i], states[i + 1]);
    }
  }

  // A command is queued, starts, and its controller's answer arrives.

  const RUN := Exec.TakeTurn(QUEUED, DEVICE, 0)
  const DONE := Answered(true, "done")
  const ANSWERED: map<RequestId, seq<CommandOutcome>> := map[0 := [DONE]]
  const T7 := ControllerAnswers(AGENT, DEVICE, true, "done")
  const T8 := ReceivesResult(0, 0, DONE)
  const H7 := FarmWith(F6.server, RUN, SHUT)
  const H8 := FarmWith(F6.server, Exec.Conclude(RUN, DEVICE, Exec.FromController(true, "done")), SHUT)
  const H9 := H8.(server := ServerWith(Some(0), [DEVICE], GatewayWith(ANSWERED, false, []), []))

  const NO_UPLINKS: Uplinks := map[]
  const UP: Uplinks := map[0 := []]
  const SENT_UP: Uplinks := map[0 := [CommandResult(0, DONE)]]

  lemma StartsAtOnce()
    ensures Leads(F6, S8, H7)
  {
  }

  lemma ControllerIsDone()
    ensures Leads(H7, T7, H8)
  {
  }

  lemma ResultArrives()
    ensures Leads(H8, T8, H9)
  {
    hide PublishEnded;
    var t := ApplyToServer(H8.server, T8);
    assert t.gateway.pending == map[] && t.gateway.timers == {};
    assert t.gateway.answers[0] == [DONE] && t.gateway.answers.Keys == {0};
    assert t.gateway.answers == ANSWERED;
    assert t == H9.server;
    ServerLeads(H8, T8, H9.server);
  }

  lemma KeepsUplinks(f: Farm, step: Step, up: Uplinks)
    requires !step.AgentOpens? && !step.ReceivesResult?
    ensures UplinkStep(f, step, up, up)
  {
    hide RepliesOn;
  }

  lemma FirstUplinks()
    ensures UplinkStep(F0, S0, NO_UPLINKS, UP)
    ensures UplinkStep(F1, S1, UP, UP) && UplinkStep(F2, S2, UP, UP) && UplinkStep(F3, S3, UP, UP)
    ensures UplinkStep(F4, S4, UP, UP) && UplinkStep(F5, S4, UP, UP) && UplinkStep(F6, S8, UP, UP)
  {
    hide RepliesOn;
    KeepsUplinks(F1, S1, UP);
    KeepsUplinks(F2, S2, UP);
    KeepsUplinks(F3, S3, UP);
    KeepsUplinks(F4, S4, UP);
    KeepsUplinks(F5, S4, UP);
    KeepsUplinks(F6, S8, UP);
    hide UplinkStep;
  }

  lemma ResultIsSent()
    ensures UplinkStep(H7, T7, UP, SENT_UP)
  {
    assert Settles(H7, T7, AGENT, DEVICE, 0, 0, Exec.FromController(true, "done"));
    assert Replies(H7, T7, AGENT, DEVICE, 0, 0, DONE);
    assert UP[0] + [CommandResult(0, DONE)] == SENT_UP[0];
    assert SENT_UP == UP[0 := UP[0] + [CommandResult(0, DONE)]];
    assert SendsResult(H7, T7, UP, SENT_UP, 0, CommandResult(0, DONE));
  }

  lemma ResultIsTaken()
    ensures UplinkStep(H8, T8, SENT_UP, UP)
  {
    assert SENT_UP[0][1..] == [];
  }

  lemma ClientHasIt()
    ensures IsAnswered(H9, 0, DONE) && DONE == Answered(true, "done") && NO_UPLINKS == map[]
  {
  }

  /** A run, with its results on the way, in which a client gets its controller's answer. */
  lemma AnswerMayArrive() returns (states: seq<Farm>, steps: seq<Step>, uplinks: seq<Uplinks>)
    ensures IsWiredRun(states, steps, uplinks) && |states| == 10 && IsAnswered(states[9], 0, Answered(true, "done"))
  {
    hide *;
    states := [F0, F1, F2, F3, F4, F5, F6, H7, H8, H9];
    steps := [S0, S1, S2, S3, S4, S4, S8, T7, T8];
    uplinks := [NO_UPLINKS, UP, UP, UP, UP, UP, UP, UP, SENT_UP, UP];
    Opens();
    Registers();
    OccupiesFirst();
    InFlightStart.Sends();
    DeliversSnapshot();
    DeliversCommand();
    StartsAtOnce();
    ControllerIsDone();
    ResultArrives();
    StartsFresh();
    IsLinked(states, steps);
    FirstUplinks();
    ResultIsSent();
    ResultIsTaken();
    ClientHasIt();
    IsWired(states, steps, uplinks);
  }

  lemma IsWired(states: seq<Farm>, steps: seq<Step>, uplinks: seq<Uplinks>)
    requires IsRun(states, steps) && |states| == |steps| + 1 == |uplinks| && uplinks[0] == map[]
    requires forall n :: 0 <= n < |steps| ==> UplinkStep(states[n], steps[n], uplinks[n], uplinks[n + 1])
    ensures IsWiredRun(states, steps, uplinks)
  {
    hide UplinkStep, Apply, Enabled;
  }
}
