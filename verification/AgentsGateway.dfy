/** Agent sockets, pending commands and what is sent to agents (packages/server/src/agents/agents.gateway.ts). */
module AgentsGateway {
  import opened Common

  datatype CommandOutcome =
    | Answered(ok: bool, body: string)
    | AgentDisconnected
    | OccupationEnded
    | TimedOut

  datatype PendingCommand = PendingCommand(agentId: AgentId, deviceId: DeviceId, occupantId: Generation)

  datatype Action = Action(kind: string, detail: string)

  datatype ServerMessage =
    | Command(requestId: RequestId, deviceId: DeviceId, occupantId: Generation, action: Action)
    | OccupancyEnded(deviceId: DeviceId, occupantId: Generation)
    | StreamDemand(deviceIds: set<DeviceId>)

  datatype SendResult = Sent | NotConnected | Unsupported

  /** The gateway's maps, the sockets' ready states and, for reasoning, what went out:
      `answers` lists for every command ever sent the calls of its promise's `resolve`,
      `wire` holds for every connection the messages sent and not yet delivered, oldest first. */
  datatype GatewayState = GatewayState(
    sockets: map<AgentId, Connection>,
    agentOf: map<Connection, AgentId>,
    open: set<Connection>,
    capabilities: map<AgentId, set<string>>,
    pending: map<RequestId, PendingCommand>,
    timers: set<RequestId>,
    answers: map<RequestId, seq<CommandOutcome>>,
    wire: map<Connection, seq<ServerMessage>>)

  const LEGACY_ACTION_KINDS: set<string> := {"tap", "swipe", "typeText", "screenshot", "uiDump"}

  function WireOf(g: GatewayState, c: Connection): seq<ServerMessage> {
    if c in g.wire then g.wire[c] else []
  }

  predicate CanSend(g: GatewayState, agentId: AgentId) {
    agentId in g.sockets && g.sockets[agentId] in g.open
  }

  /** Sends on the agent's registered socket if that is open, else does nothing. */
  function Send(g: GatewayState, agentId: AgentId, message: ServerMessage): GatewayState {
    if CanSend(g, agentId) then
      g.(wire := g.wire[g.sockets[agentId] := WireOf(g, g.sockets[agentId]) + [message]])
    else g
  }

  function SendIfKnown(g: GatewayState, agentId: Option<AgentId>, message: ServerMessage): GatewayState {
    if agentId.Some? then Send(g, agentId.value, message) else g
  }

  /** Deletes the entries `requests`, clears their timers and resolves each with `outcome`. */
  function Resolve(g: GatewayState, requests: set<RequestId>, outcome: CommandOutcome): GatewayState {
    g.(pending := g.pending - requests,
       timers := g.timers - requests,
       answers := map r | r in g.answers :: if r in requests then g.answers[r] + [outcome] else g.answers[r])
  }

  function PendingOfAgent(g: GatewayState, agentId: AgentId): set<RequestId> {
    set r | r in g.pending && g.pending[r].agentId == agentId
  }

  function PendingOfOccupation(g: GatewayState, d: DeviceId, occupantId: Generation): set<RequestId> {
    set r | r in g.pending && g.pending[r].deviceId == d && g.pending[r].occupantId == occupantId
  }

  /** An authorised connection takes over the agent's slot; a socket already there is closed with 4409. */
  function Connect(g: GatewayState, agentId: AgentId, c: Connection): GatewayState {
    g.(sockets := g.sockets[agentId := c],
       agentOf := g.agentOf[c := agentId],
       open := (if agentId in g.sockets then g.open - {g.sockets[agentId]} else g.open) + {c},
       wire := g.wire[c := []])
  }

  /** The close event concerns the registered socket of its agent, not a superseded one. */
  predicate IsCurrent(g: GatewayState, c: Connection) {
    c in g.agentOf && g.agentOf[c] in g.sockets && g.sockets[g.agentOf[c]] == c
  }

  function Disconnect(g: GatewayState, c: Connection): GatewayState {
    if IsCurrent(g, c) then
      var agentId := g.agentOf[c];
      Resolve(g.(sockets := g.sockets - {agentId}, capabilities := g.capabilities - {agentId}, open := g.open - {c}),
              PendingOfAgent(g, agentId), AgentDisconnected)
    else g.(open := g.open - {c})
  }

  function RevokeOccupancy(g: GatewayState, d: DeviceId, occupantId: Generation, agentId: Option<AgentId>): GatewayState {
    SendIfKnown(Resolve(g, PendingOfOccupation(g, d, occupantId), OccupationEnded), agentId, OccupancyEnded(d, occupantId))
  }

  function CapabilitiesOf(g: GatewayState, agentId: AgentId): set<string> {
    if agentId in g.capabilities then g.capabilities[agentId] else LEGACY_ACTION_KINDS
  }

  function SendResultOf(g: GatewayState, agentId: AgentId, action: Action): SendResult {
    if !CanSend(g, agentId) then NotConnected
    else if action.kind !in CapabilitiesOf(g, agentId) then Unsupported
    else Sent
  }

  function SendCommand(g: GatewayState, agentId: AgentId, d: DeviceId, occupantId: Generation, action: Action, r: RequestId): GatewayState {
    if SendResultOf(g, agentId, action).Sent? then
      Send(g.(pending := g.pending[r := PendingCommand(agentId, d, occupantId)],
              timers := g.timers + {r},
              answers := g.answers[r := []]),
           agentId, Command(r, d, occupantId, action))
    else g
  }

  /** A `commandResult` counts only if it answers a pending request of the same agent. */
  function ResolveCommand(g: GatewayState, agentId: AgentId, r: RequestId, outcome: CommandOutcome): GatewayState {
    if r in g.pending && g.pending[r].agentId == agentId then Resolve(g, {r}, outcome) else g
  }

  /** Bookkeeping of commands: pending entries have a timer and an unresolved promise, all others are resolved once. */
  ghost predicate AnswersInv(g: GatewayState) {
    && g.timers == g.pending.Keys
    && (forall r :: r in g.pending ==> r in g.answers && g.answers[r] == [])
    && (forall r :: r in g.answers && r !in g.pending ==> |g.answers[r]| == 1)
  }

  /** Every pending entry's agent has a registered socket; registered sockets know their agent and have a channel. */
  ghost predicate SocketsInv(g: GatewayState) {
    && (forall r :: r in g.pending ==> g.pending[r].agentId in g.sockets)
    && (forall a :: a in g.sockets ==> g.sockets[a] in g.agentOf && g.agentOf[g.sockets[a]] == a)
    && g.open <= g.agentOf.Keys
    && g.wire.Keys == g.agentOf.Keys
    && (forall c :: c in g.open ==> g.agentOf[c] in g.sockets && g.sockets[g.agentOf[c]] == c)
  }

  ghost predicate GatewayInv(g: GatewayState) {
    AnswersInv(g) && SocketsInv(g)
  }

  lemma SendKeepsInv(g: GatewayState, agentId: Option<AgentId>, message: ServerMessage)
    requires GatewayInv(g)
    ensures GatewayInv(SendIfKnown(g, agentId, message))
  {
  }

  lemma ResolveKeepsInv(g: GatewayState, requests: set<RequestId>, outcome: CommandOutcome)
    requires GatewayInv(g) && requests <= g.pending.Keys
    ensures GatewayInv(Resolve(g, requests, outcome))
  {
  }

  lemma ConnectKeepsInv(g: GatewayState, agentId: AgentId, c: Connection)
    requires GatewayInv(g) && c !in g.agentOf
    ensures GatewayInv(Connect(g, agentId, c))
  {
  }

  lemma DisconnectKeepsInv(g: GatewayState, c: Connection)
    requires GatewayInv(g)
    ensures GatewayInv(Disconnect(g, c))
  {
  }

  lemma SendCommandKeepsInv(g: GatewayState, agentId: AgentId, d: DeviceId, occupantId: Generation, action: Action, r: RequestId)
    requires GatewayInv(g) && r !in g.answers
    ensures GatewayInv(SendCommand(g, agentId, d, occupantId, action, r))
  {
  }

  /** A timer that fires belongs to a command still waiting; it gives that command its one answer and touches no other. */
  lemma TimeoutAnswersItsOwn(g: GatewayState, r: RequestId, x: RequestId)
    requires GatewayInv(g) && r in g.timers
    ensures var h := Resolve(g, {r}, TimedOut);
            && GatewayInv(h) && g.answers[r] == [] && h.answers[r] == [TimedOut] && r !in h.pending && r !in h.timers
            && (x != r ==> (x in h.timers <==> x in g.timers) && (x in h.pending <==> x in g.pending)
                           && (x in g.answers ==> x in h.answers && h.answers[x] == g.answers[x]))
  {
    ResolveKeepsInv(g, {r}, TimedOut);
  }

  lemma ResolveNone(g: GatewayState, outcome: CommandOutcome)
    ensures Resolve(g, {}, outcome) == g
  {
    assert g.pending - {} == g.pending;
    assert (map r | r in g.answers :: g.answers[r]) == g.answers;
  }

  lemma ResolveOneMore(g: GatewayState, requests: set<RequestId>, r: RequestId, outcome: CommandOutcome)
    requires r !in requests
    ensures Resolve(Resolve(g, requests, outcome), {r}, outcome) == Resolve(g, requests + {r}, outcome)
  {
    var once, twice := Resolve(g, requests, outcome), Resolve(g, requests + {r}, outcome);
    assert once.pending - {r} == twice.pending;
    assert once.timers - {r} == twice.timers;
    assert Resolve(once, {r}, outcome).answers == twice.answers;
  }

  class Gateway {
    var agentSockets: map<AgentId, Connection>
    var agentOf: map<Connection, AgentId>
    var open: set<Connection>
    var agentCapabilities: map<AgentId, set<string>>
    var pendingCommands: map<RequestId, PendingCommand>
    var timers: set<RequestId>
    ghost var answers: map<RequestId, seq<CommandOutcome>>
    var wire: map<Connection, seq<ServerMessage>>

    ghost function State(): GatewayState
      reads this
    {
      GatewayState(agentSockets, agentOf, open, agentCapabilities, pendingCommands, timers, answers, wire)
    }

    constructor ()
      ensures State() == GatewayState(map[], map[], {}, map[], map[], {}, map[], map[])
    {
      agentSockets, agentOf, open, agentCapabilities := map[], map[], {}, map[];
      pendingCommands, timers, answers, wire := map[], {}, map[], map[];
    }

    /** After authentication: the newer connection of an agent replaces the older one. */
    method HandleConnection(agentId: AgentId, c: Connection)
      requires c !in agentOf && GatewayInv(State())
      modifies this
      ensures State() == Connect(old(State()), agentId, c)
    {
      if agentId in agentSockets {
        open := open - {agentSockets[agentId]};
      }
      agentOf := agentOf[c := agentId];
      open := open + {c};
      wire := wire[c := []];
      agentSockets := agentSockets[agentId := c];
    }

    /** Returns the agent that went away, whose devices the caller marks offline. */
    method HandleDisconnect(c: Connection) returns (gone: Option<AgentId>)
      requires GatewayInv(State())
      modifies this
      ensures State() == Disconnect(old(State()), c)
      ensures gone == if IsCurrent(old(State()), c) then Some(old(agentOf)[c]) else None
    {
      open := open - {c};
      if c !in agentOf { return None; }
      var agentId := agentOf[c];
      if agentId !in agentSockets || agentSockets[agentId] != c { return None; }
      agentSockets := agentSockets - {agentId};
      agentCapabilities := agentCapabilities - {agentId};
      FailPendingCommands(agentId);
      return Some(agentId);
    }

    /** Deletes a pending entry, clears its timer and resolves its promise. */
    method Finish(r: RequestId, outcome: CommandOutcome)
      modifies this
      ensures State() == Resolve(old(State()), {r}, outcome)
    {
      pendingCommands := pendingCommands - {r};
      timers := timers - {r};
      answers := map x | x in answers :: if x == r then answers[x] + [outcome] else answers[x];
    }

    method FailPendingCommands(agentId: AgentId)
      modifies this
      ensures State() == Resolve(old(State()), PendingOfAgent(old(State()), agentId), AgentDisconnected)
    {
      var entries, todo := pendingCommands, pendingCommands.Keys;
      ghost var before, failed := State(), {};
      ResolveNone(before, AgentDisconnected);
      while todo != {}
        invariant todo <= entries.Keys
        invariant failed == PendingOfAgent(before, agentId) - todo
        invariant State() == Resolve(before, failed, AgentDisconnected)
      {
        var r :| r in todo;
        todo := todo - {r};
        if entries[r].agentId == agentId {
          ResolveOneMore(before, failed, r, AgentDisconnected);
          failed := failed + {r};
          Finish(r, AgentDisconnected);
        }
      }
      assert failed == PendingOfAgent(before, agentId);
    }

    method FailPendingByOccupation(d: DeviceId, occupantId: Generation)
      modifies this
      ensures State() == Resolve(old(State()), PendingOfOccupation(old(State()), d, occupantId), OccupationEnded)
    {
      var entries, todo := pendingCommands, pendingCommands.Keys;
      ghost var before, failed := State(), {};
      ResolveNone(before, OccupationEnded);
      while todo != {}
        invariant todo <= entries.Keys
        invariant failed == PendingOfOccupation(before, d, occupantId) - todo
        invariant State() == Resolve(before, failed, OccupationEnded)
      {
        var r :| r in todo;
        todo := todo - {r};
        if entries[r].deviceId == d && entries[r].occupantId == occupantId {
          ResolveOneMore(before, failed, r, OccupationEnded);
          failed := failed + {r};
          Finish(r, OccupationEnded);
        }
      }
      assert failed == PendingOfOccupation(before, d, occupantId);
    }

    method RevokeOccupation(d: DeviceId, occupantId: Generation, agentId: Option<AgentId>)
      modifies this
      ensures State() == RevokeOccupancy(old(State()), d, occupantId, agentId)
    {
      FailPendingByOccupation(d, occupantId);
      if agentId.None? || agentId.value !in agentSockets || agentSockets[agentId.value] !in open { return; }
      Transmit(agentSockets[agentId.value], OccupancyEnded(d, occupantId));
    }

    method Transmit(c: Connection, message: ServerMessage)
      modifies this`wire
      ensures wire == old(wire)[c := WireOf(old(State()), c) + [message]]
    {
      wire := wire[c := (if c in wire then wire[c] else []) + [message]];
    }

    method Dispatch(agentId: AgentId, d: DeviceId, occupantId: Generation, action: Action, r: RequestId) returns (result: SendResult)
      requires r !in answers
      modifies this
      ensures result == SendResultOf(old(State()), agentId, action)
      ensures State() == SendCommand(old(State()), agentId, d, occupantId, action, r)
    {
      if agentId !in agentSockets || agentSockets[agentId] !in open { return NotConnected; }
      var capabilities := if agentId in agentCapabilities then agentCapabilities[agentId] else LEGACY_ACTION_KINDS;
      if action.kind !in capabilities { return Unsupported; }
      timers := timers + {r};
      pendingCommands := pendingCommands[r := PendingCommand(agentId, d, occupantId)];
      answers := answers[r := []];
      Transmit(agentSockets[agentId], Command(r, d, occupantId, action));
      return Sent;
    }

    /** The timer of a command fires; clearing timers elsewhere is what keeps this from answering twice. */
    method TimerFires(r: RequestId)
      requires r in timers
      modifies this
      ensures State() == Resolve(old(State()), {r}, TimedOut)
    {
      Finish(r, TimedOut);
    }

    method HandleResult(agentId: AgentId, r: RequestId, outcome: CommandOutcome)
      modifies this
      ensures State() == ResolveCommand(old(State()), agentId, r, outcome)
    {
      if r !in pendingCommands || pendingCommands[r].agentId != agentId { return; }
      Finish(r, outcome);
    }
  }
}
