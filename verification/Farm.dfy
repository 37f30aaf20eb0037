/** The device farm as a step system: the server, the agents, and one in-order channel from the server to each
    connection. A step is one callback of one process, run up to its first real wait. What agents send to the server
    is left arbitrary: a register, heartbeat or result message may come from any connection at any time. */
module Farm {
  import opened Common
  import opened DevicesRepository
  import opened AgentsGateway
  import opened Server
  import opened StreamDemandGate
  import Exec = CommandExecutor

  /** An agent process; `link` is its current connection, from opening until it has handled the close event. */
  datatype Agent = Agent(link: Option<Connection>, executor: Exec.ExecutorState, gate: GateState)

  datatype Farm = Farm(server: ServerState, agents: map<AgentId, Agent>)

  datatype Step =
    // HTTP requests of clients
    | Occupies(device: DeviceId, filter: OccupyFilter, now: Time)
    | Releases(device: DeviceId, occupantId: Generation)
    | KeepsAlive(device: DeviceId, occupantId: Generation, now: Time)
    | Executes(device: DeviceId, occupantId: Generation, action: Action, requestId: RequestId, now: Time)
    // sweeps and timers of the server
    | SweepsIdle(cutoff: Time, ended: seq<EndedOccupation>)
    | SweepsStale(cutoff: Time, ended: seq<EndedOccupation>)
    | CommandTimer(requestId: RequestId)
    // viewers
    | ViewerJoins(device: DeviceId, occupantId: Generation, socket: ViewerSocket)
    | ViewerLeaves(device: DeviceId, socket: ViewerSocket)
    // connections of agents, as the server sees them
    | AgentOpens(agentId: AgentId, c: Connection)
    | SocketGoesDown(c: Connection)
    | ServerSeesClose(c: Connection)
    | ReceivesRegister(c: Connection, items: seq<RegisterInput>, capabilities: Option<set<string>>, now: Time)
    | ReceivesHeartbeat(c: Connection, ids: set<DeviceId>, now: Time)
    | ReceivesResult(c: Connection, requestId: RequestId, outcome: CommandOutcome)
    | ReceivesFrame(c: Connection, device: DeviceId, writable: set<ViewerSocket>)
    // callbacks of an agent
    | Delivers(agentId: AgentId, isRegistered: bool, isReady: bool, now: Time)
    | AgentSeesClose(agentId: AgentId)
    | AgentRestarts(agentId: AgentId)
    | QueueTurn(agentId: AgentId, device: DeviceId, now: Time)
    | ControllerAnswers(agentId: AgentId, device: DeviceId, ok: bool, body: string)
    | QueueCleanUp(agentId: AgentId, device: DeviceId)

  const NEW_AGENT := Agent(None, Exec.IDLE, OPEN_GATE)

  predicate Init(f: Farm) {
    f.server == EMPTY_SERVER && forall a :: a in f.agents ==> f.agents[a] == NEW_AGENT
  }

  /** The messages an agent has still to receive on its connection. */
  function Inbox(f: Farm, a: AgentId): seq<ServerMessage> {
    if a in f.agents && f.agents[a].link.Some? then WireOf(f.server.gateway, f.agents[a].link.value) else []
  }

  /** What a message does to the agent that receives it. */
  function Receive(agent: Agent, message: ServerMessage, isRegistered: bool, isReady: bool, now: Time): Agent {
    match message
    case Command(r, d, g, _) =>
      if Exec.VerdictOf(agent.executor, d, isRegistered, isReady).Queued? then
        agent.(executor := Exec.Accept(agent.executor, d, r, g, now))
      else agent
    case OccupancyEnded(d, g) => agent.(executor := Exec.Revoke(agent.executor, d, g))
    case StreamDemand(ids) => agent.(gate := GateState(true, ids))
  }

  function WithAgent(f: Farm, a: AgentId, agent: Agent): Farm {
    f.(agents := f.agents[a := agent])
  }

  /** Steps that only change the server. */
  predicate IsServerStep(step: Step) {
    !step.AgentOpens? && !step.Delivers? && !IsOwnStep(step)
  }

  ghost predicate ServerEnabled(s: ServerState, step: Step)
    requires IsServerStep(step)
  {
    match step
    case Occupies(d, filter, now) => d in s.devices && IsCandidate(s.devices[d], d, filter)
    case Executes(d, g, action, r, now) => r !in s.gateway.answers
    case SweepsIdle(cutoff, ended) => Enumerates(ended, s.devices, IdleIds(s.devices, cutoff))
    case SweepsStale(cutoff, ended) => Enumerates(ended, s.devices, StaleIds(s.devices, cutoff))
    case CommandTimer(r) => r in s.gateway.timers
    case _ => true
  }

  function ApplyToServer(s: ServerState, step: Step): ServerState
    requires IsServerStep(step) && (step.Occupies? ==> step.device in s.devices)
  {
    match step
    case Occupies(d, _, now) => OccupyDevice(s, d, now)
    case Releases(d, g) => ReleaseDevice(s, d, g)
    case KeepsAlive(d, g, now) => RenewDevice(s, d, g, now)
    case Executes(d, g, action, r, now) => ExecuteCommand(s, d, g, action, r, now)
    case SweepsIdle(cutoff, ended) => ExpireIdle(s, cutoff, ended)
    case SweepsStale(cutoff, ended) => ExpireStale(s, cutoff, ended)
    case CommandTimer(r) => CommandTimesOut(s, r)
    case ViewerJoins(d, g, v) => ConnectViewer(s, d, g, v)
    case ViewerLeaves(d, v) => DisconnectViewer(s, d, v)
    case SocketGoesDown(c) => SocketDown(s, c)
    case ServerSeesClose(c) => DisconnectAgent(s, c)
    case ReceivesRegister(c, items, capabilities, now) => Register(s, c, items, capabilities, now)
    case ReceivesHeartbeat(c, ids, now) => HandleHeartbeat(s, c, ids, now)
    case ReceivesResult(c, r, outcome) => HandleResult(s, c, r, outcome)
    case ReceivesFrame(_, _, _) => s
  }

  function PopInbox(s: ServerState, c: Connection): ServerState
    requires WireOf(s.gateway, c) != []
  {
    s.(gateway := s.gateway.(wire := s.gateway.wire[c := s.gateway.wire[c][1..]]))
  }

  /** An agent's new connection is admitted by the server. */
  function OpenedBy(f: Farm, a: AgentId, c: Connection): Farm
    requires a in f.agents
  {
    WithAgent(f.(server := ConnectAgent(f.server, a, c)), a, f.agents[a].(link := Some(c)))
  }

  /** The oldest message of an agent's inbox is delivered. */
  function DeliveredTo(f: Farm, a: AgentId, isRegistered: bool, isReady: bool, now: Time): Farm
    requires Inbox(f, a) != []
  {
    WithAgent(f.(server := PopInbox(f.server, f.agents[a].link.value)), a,
              Receive(f.agents[a], Inbox(f, a)[0], isRegistered, isReady, now))
  }

  predicate IsOwnStep(step: Step) {
    step.AgentSeesClose? || step.AgentRestarts? || step.QueueTurn? || step.ControllerAnswers? || step.QueueCleanUp?
  }

  predicate OwnEnabled(agent: Agent, step: Step)
    requires IsOwnStep(step)
  {
    match step
    case AgentSeesClose(_) => agent.link.Some?
    case AgentRestarts(_) => true
    case QueueTurn(_, d, _) => Exec.HeadIs(agent.executor, d, Exec.Waiting)
    case ControllerAnswers(_, d, _, _) => Exec.HeadIs(agent.executor, d, Exec.Running)
    case QueueCleanUp(_, d) => Exec.HeadIs(agent.executor, d, Exec.Settled)
  }

  /** Callbacks that concern nothing but the agent. On `close` it forgets all generations and resets the gate. */
  function OwnStep(agent: Agent, step: Step): Agent
    requires IsOwnStep(step) && OwnEnabled(agent, step)
  {
    match step
    case AgentSeesClose(_) => Agent(None, Exec.RevokeAll(agent.executor), OPEN_GATE)
    case AgentRestarts(_) => NEW_AGENT
    case QueueTurn(_, d, now) => agent.(executor := Exec.TakeTurn(agent.executor, d, now))
    case ControllerAnswers(_, d, ok, body) => agent.(executor := Exec.Conclude(agent.executor, d, Exec.FromController(ok, body)))
    case QueueCleanUp(_, d) => agent.(executor := Exec.CleanUp(agent.executor, d))
  }

  ghost predicate Enabled(f: Farm, step: Step) {
    if IsServerStep(step) then ServerEnabled(f.server, step)
    else if step.AgentOpens? then
      step.agentId in f.agents && f.agents[step.agentId].link.None? && step.c !in f.server.gateway.agentOf
    else if step.Delivers? then Inbox(f, step.agentId) != []
    else step.agentId in f.agents && OwnEnabled(f.agents[step.agentId], step)
  }

  ghost function Apply(f: Farm, step: Step): Farm
    requires Enabled(f, step)
  {
    if IsServerStep(step) then f.(server := ApplyToServer(f.server, step))
    else if step.AgentOpens? then OpenedBy(f, step.agentId, step.c)
    else if step.Delivers? then DeliveredTo(f, step.agentId, step.isRegistered, step.isReady, step.now)
    else WithAgent(f, step.agentId, OwnStep(f.agents[step.agentId], step))
  }

  /** A run: the states before, between and after its steps. */
  ghost predicate IsRun(states: seq<Farm>, steps: seq<Step>) {
    && |states| == |steps| + 1
    && Init(states[0])
    && forall i :: 0 <= i < |steps| ==> Enabled(states[i], steps[i]) && states[i + 1] == Apply(states[i], steps[i])
  }
}
