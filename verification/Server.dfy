/** The server as a whole: the services that change several of its parts in one synchronous callback
    (packages/server/src/devices/devices.service.ts, devices/occupancy-events.service.ts, the two listeners of occupancy/,
    commands/commands.service.ts, streams/streams.gateway.ts, agents/agents.gateway.ts). */
module Server {
  import opened Common
  import opened DevicesRepository
  import opened StreamsRelay
  import opened AgentsGateway

  datatype EndReason = Released | IdleExpired | AgentStale

  datatype EndedEvent = EndedEvent(deviceId: DeviceId, occupantId: Generation, reason: EndReason)

  /** `issued[g]` is the device that occupation g was given; `ended` the events published, in order;
      `registered` the connections on which a register message was handled. */
  datatype ServerState = ServerState(
    devices: Table,
    relay: RelayState,
    gateway: GatewayState,
    issued: seq<DeviceId>,
    ended: seq<EndedEvent>,
    registered: set<Connection>)

  const EMPTY_SERVER := ServerState(map[], RelayState(map[], []),
                                    GatewayState(map[], map[], {}, map[], map[], {}, map[], map[]), [], [], {})

  /** The devices of an agent that have viewers: the content of a demand snapshot. */
  function Demand(s: ServerState, agentId: AgentId): set<DeviceId> {
    set d | d in OwnedBy(s.devices, agentId) && d in s.relay.viewers
  }

  function SendDemand(s: ServerState, agentId: Option<AgentId>): ServerState {
    if agentId.None? then s
    else s.(gateway := Send(s.gateway, agentId.value, StreamDemand(Demand(s, agentId.value))))
  }

  /** A change of the viewers of `d`, followed by a snapshot for the device's owner if it crossed a boundary. */
  function WithRelay(s: ServerState, d: DeviceId, relay: RelayState): ServerState {
    var after := s.(relay := relay);
    if (d in relay.viewers) == (d in s.relay.viewers) then after else SendDemand(after, AgentOf(s.devices, d))
  }

  /** The bus calls the stream listener and then the command listener. */
  function PublishEnded(s: ServerState, e: EndedEvent): ServerState {
    var closed := WithRelay(s, e.deviceId, CloseViewers(s.relay, e.deviceId, e.occupantId));
    closed.(gateway := RevokeOccupancy(closed.gateway, e.deviceId, e.occupantId, AgentOf(closed.devices, e.deviceId)),
            ended := closed.ended + [e])
  }

  function PublishAll(s: ServerState, ended: seq<EndedOccupation>, reason: EndReason): ServerState {
    if ended == [] then s
    else
      var last := ended[|ended| - 1];
      PublishEnded(PublishAll(s, ended[..|ended| - 1], reason), EndedEvent(last.deviceId, last.occupantId, reason))
  }

  function OccupyDevice(s: ServerState, d: DeviceId, now: Time): ServerState
    requires d in s.devices
  {
    s.(devices := Occupy(s.devices, d, |s.issued|, now), issued := s.issued + [d])
  }

  function ReleaseDevice(s: ServerState, d: DeviceId, occupantId: Generation): ServerState {
    if CheckOccupant(s.devices, d, occupantId).Done? then
      PublishEnded(s.(devices := VacateAll(s.devices, {d})), EndedEvent(d, occupantId, Released))
    else s
  }

  function RenewDevice(s: ServerState, d: DeviceId, occupantId: Generation, now: Time): ServerState {
    if CheckOccupant(s.devices, d, occupantId).Done? then s.(devices := Renew(s.devices, d, now)) else s
  }

  /** A sweep: the rows change in one transaction, then one event per ended occupation is published. */
  function ExpireIdle(s: ServerState, cutoff: Time, ended: seq<EndedOccupation>): ServerState {
    PublishAll(s.(devices := VacateAll(s.devices, IdleIds(s.devices, cutoff))), ended, IdleExpired)
  }

  function ExpireStale(s: ServerState, cutoff: Time, ended: seq<EndedOccupation>): ServerState {
    PublishAll(s.(devices := OfflineAll(s.devices, StaleIds(s.devices, cutoff))), ended, AgentStale)
  }

  datatype ExecuteResult = NoDevice | WrongOccupant | Offline | AgentGone | Refused | Waiting

  function ExecuteResultOf(s: ServerState, d: DeviceId, occupantId: Generation, action: Action): ExecuteResult {
    if d !in s.devices then NoDevice
    else if s.devices[d].occupantId != Some(occupantId) then WrongOccupant
    else if !s.devices[d].isOnline || s.devices[d].agentId.None? then Offline
    else match SendResultOf(s.gateway, s.devices[d].agentId.value, action)
      case NotConnected => AgentGone
      case Unsupported => Refused
      case Sent => Waiting
  }

  /** `CommandsService.execute` up to its first wait: check, renew, send. */
  function ExecuteCommand(s: ServerState, d: DeviceId, occupantId: Generation, action: Action, r: RequestId, now: Time): ServerState {
    if ExecuteResultOf(s, d, occupantId, action) in {NoDevice, WrongOccupant, Offline} then s
    else
      s.(devices := Renew(s.devices, d, now),
         gateway := SendCommand(s.gateway, s.devices[d].agentId.value, d, occupantId, action, r))
  }

  function ConnectViewer(s: ServerState, d: DeviceId, occupantId: Generation, socket: ViewerSocket): ServerState {
    if OccupantOf(s.devices, d) == Some(occupantId) then
      WithRelay(s, d, AddViewer(s.relay, d, occupantId, socket))
    else s
  }

  function DisconnectViewer(s: ServerState, d: DeviceId, socket: ViewerSocket): ServerState {
    WithRelay(s, d, RemoveViewer(s.relay, d, socket))
  }

  function ConnectAgent(s: ServerState, agentId: AgentId, c: Connection): ServerState {
    s.(gateway := Connect(s.gateway, agentId, c))
  }

  function SocketDown(s: ServerState, c: Connection): ServerState {
    s.(gateway := s.gateway.(open := s.gateway.open - {c}))
  }

  function DisconnectAgent(s: ServerState, c: Connection): ServerState {
    var after := s.(gateway := Disconnect(s.gateway, c));
    if IsCurrent(s.gateway, c) then after.(devices := AgentOffline(s.devices, s.gateway.agentOf[c])) else after
  }

  /** A register message; one arriving on a superseded socket is ignored. */
  function Register(s: ServerState, c: Connection, items: seq<RegisterInput>, capabilities: Option<set<string>>, now: Time): ServerState {
    if !IsCurrent(s.gateway, c) then s
    else
      var agentId := s.gateway.agentOf[c];
      var kinds := if capabilities.Some? then capabilities.value else LEGACY_ACTION_KINDS;
      SendDemand(s.(devices := UpsertMany(s.devices, items, agentId, now),
                    gateway := s.gateway.(capabilities := s.gateway.capabilities[agentId := kinds]),
                    registered := s.registered + {c}),
                 Some(agentId))
  }

  function HandleHeartbeat(s: ServerState, c: Connection, ids: set<DeviceId>, now: Time): ServerState {
    if !IsCurrent(s.gateway, c) then s
    else s.(devices := Heartbeat(s.devices, ids, s.gateway.agentOf[c], now))
  }

  function HandleResult(s: ServerState, c: Connection, r: RequestId, outcome: CommandOutcome): ServerState {
    if !IsCurrent(s.gateway, c) then s
    else s.(gateway := ResolveCommand(s.gateway, s.gateway.agentOf[c], r, outcome))
  }

  /** The viewers a mirrored frame of `d` is sent to when it arrives on connection c; `writable` are the open ones that are
      not backed up. Frames on superseded sockets and of devices of other agents are dropped. */
  function FrameTargets(s: ServerState, c: Connection, d: DeviceId, writable: set<ViewerSocket>): set<ViewerSocket> {
    if IsCurrent(s.gateway, c) && AgentOf(s.devices, d) == Some(s.gateway.agentOf[c]) then InnerOf(s.relay, d).Keys * writable else {}
  }

  function CommandTimesOut(s: ServerState, r: RequestId): ServerState {
    s.(gateway := Resolve(s.gateway, {r}, TimedOut))
  }

  /** The server's objects, with the two end-of-occupation listeners and the demand listener subscribed. */
  class NebulaServer {
    const repository: SqliteDevicesRepository
    const relay: StreamsRelayService
    const gateway: Gateway
    var issued: seq<DeviceId>
    ghost var ended: seq<EndedEvent>
    ghost var registered: set<Connection>

    ghost function State(): ServerState
      reads this, repository, relay, gateway
    {
      ServerState(repository.rows, relay.State(), gateway.State(), issued, ended, registered)
    }

    constructor ()
      ensures fresh(repository) && fresh(relay) && fresh(gateway)
      ensures State() == EMPTY_SERVER
    {
      repository := new SqliteDevicesRepository();
      relay := new StreamsRelayService();
      gateway := new Gateway();
      issued, ended, registered := [], [], {};
    }

    /** `sendStreamDemandFor`: a full snapshot, never an increment. */
    method SendStreamDemandFor(agentId: Option<AgentId>)
      modifies gateway`wire
      ensures State() == SendDemand(old(State()), agentId)
    {
      if agentId.None? || agentId.value !in gateway.agentSockets { return; }
      var c := gateway.agentSockets[agentId.value];
      if c !in gateway.open { return; }
      var viewed := relay.viewers.Keys;
      var devices := set d | d in repository.rows && repository.rows[d].agentId == agentId && d in viewed;
      assert devices == Demand(State(), agentId.value);
      gateway.Transmit(c, StreamDemand(devices));
    }

    method NotifyDemandChanged(d: DeviceId)
      modifies gateway`wire
      ensures State() == SendDemand(old(State()), AgentOf(old(State()).devices, d))
    {
      SendStreamDemandFor(if d in repository.rows then repository.rows[d].agentId else None);
    }

    method Publish(e: EndedEvent, open: set<ViewerSocket>) returns (closed: set<ViewerSocket>)
      modifies this`ended, relay, gateway
      ensures State() == PublishEnded(old(State()), e)
      ensures closed <= InnerOf(old(State()).relay, e.deviceId).Keys
    {
      var changed;
      changed, closed := relay.Close(e.deviceId, e.occupantId, open);
      if changed {
        NotifyDemandChanged(e.deviceId);
      }
      gateway.RevokeOccupation(e.deviceId, e.occupantId,
                               if e.deviceId in repository.rows then repository.rows[e.deviceId].agentId else None);
      ended := ended + [e];
    }

    method PublishEach(list: seq<EndedOccupation>, reason: EndReason, open: set<ViewerSocket>)
      modifies this`ended, relay, gateway
      ensures State() == PublishAll(old(State()), list, reason)
    {
      for i := 0 to |list|
        invariant State() == PublishAll(old(State()), list[..i], reason)
      {
        assert list[..i + 1][..i] == list[..i];
        var _ := Publish(EndedEvent(list[i].deviceId, list[i].occupantId, reason), open);
      }
      assert list[..|list|] == list;
    }

    method OccupyAny(scan: seq<DeviceId>, filter: OccupyFilter, now: Time) returns (found: Option<DeviceId>, occupantId: Generation)
      requires IsScan(scan, repository.rows)
      modifies this`issued, repository
      ensures found.None? ==> State() == old(State())
      ensures found.Some? ==>
                && found.value in old(repository.rows) && IsCandidate(old(repository.rows)[found.value], found.value, filter)
                && State() == OccupyDevice(old(State()), found.value, now) && occupantId == |old(issued)|
    {
      occupantId := |issued|;
      found := repository.TryOccupy(scan, filter, occupantId, now);
      if found.Some? {
        issued := issued + [found.value];
      }
    }

    method Release(d: DeviceId, occupantId: Generation, open: set<ViewerSocket>) returns (result: OccupationResult)
      modifies this`ended, repository, relay, gateway
      ensures result == CheckOccupant(old(State()).devices, d, occupantId)
      ensures State() == ReleaseDevice(old(State()), d, occupantId)
    {
      result := repository.Release(d, occupantId);
      if result.Done? {
        var _ := Publish(EndedEvent(d, occupantId, Released), open);
      }
    }

    method RenewOccupation(d: DeviceId, occupantId: Generation, now: Time) returns (result: OccupationResult)
      modifies repository
      ensures result == CheckOccupant(old(State()).devices, d, occupantId)
      ensures State() == RenewDevice(old(State()), d, occupantId, now)
    {
      result := repository.RenewOccupation(d, occupantId, now);
    }

    method ExpireIdleOccupations(scan: seq<DeviceId>, cutoff: Time, open: set<ViewerSocket>) returns (list: seq<EndedOccupation>)
      requires IsScan(scan, repository.rows)
      modifies this`ended, repository, relay, gateway
      ensures Enumerates(list, old(State()).devices, IdleIds(old(State()).devices, cutoff))
      ensures State() == ExpireIdle(old(State()), cutoff, list)
    {
      list := repository.ExpireIdleOccupations(scan, cutoff);
      PublishEach(list, IdleExpired, open);
    }

    method ExpireStaleDevices(scan: seq<DeviceId>, cutoff: Time, open: set<ViewerSocket>) returns (list: seq<EndedOccupation>)
      requires IsScan(scan, repository.rows)
      modifies this`ended, repository, relay, gateway
      ensures Enumerates(list, old(State()).devices, StaleIds(old(State()).devices, cutoff))
      ensures State() == ExpireStale(old(State()), cutoff, list)
    {
      list := repository.MarkStaleOffline(scan, cutoff);
      PublishEach(list, AgentStale, open);
    }

    method Execute(d: DeviceId, occupantId: Generation, action: Action, r: RequestId, now: Time) returns (result: ExecuteResult)
      requires r !in gateway.answers
      modifies repository, gateway
      ensures result == ExecuteResultOf(old(State()), d, occupantId, action)
      ensures State() == ExecuteCommand(old(State()), d, occupantId, action, r, now)
    {
      if d !in repository.rows { return NoDevice; }
      var device := repository.rows[d];
      if device.occupantId != Some(occupantId) { return WrongOccupant; }
      if !device.isOnline || device.agentId.None? { return Offline; }
      var renewed := repository.RenewOccupation(d, occupantId, now);
      var sent := gateway.Dispatch(device.agentId.value, d, occupantId, action, r);
      match sent
      case NotConnected => return AgentGone;
      case Unsupported => return Refused;
      case Sent => return Waiting;
    }

    /** Viewer admission: only the current occupant may watch. */
    method HandleViewer(d: DeviceId, occupantId: Generation, socket: ViewerSocket) returns (admitted: bool)
      modifies relay, gateway`wire
      ensures admitted <==> OccupantOf(old(State()).devices, d) == Some(occupantId)
      ensures State() == ConnectViewer(old(State()), d, occupantId, socket)
    {
      if d !in repository.rows || repository.rows[d].occupantId != Some(occupantId) { return false; }
      var changed := relay.Add(d, occupantId, socket);
      if changed {
        NotifyDemandChanged(d);
      }
      return true;
    }

    method HandleViewerGone(d: DeviceId, socket: ViewerSocket)
      modifies relay, gateway`wire
      ensures State() == DisconnectViewer(old(State()), d, socket)
    {
      var changed := relay.Remove(d, socket);
      if changed {
        NotifyDemandChanged(d);
      }
    }

    method HandleAgentGone(c: Connection)
      requires GatewayInv(gateway.State())
      modifies repository, gateway
      ensures State() == DisconnectAgent(old(State()), c)
    {
      var gone := gateway.HandleDisconnect(c);
      if gone.Some? {
        repository.MarkAgentOffline(gone.value);
      }
    }

    method HandleRegister(c: Connection, items: seq<RegisterInput>, capabilities: Option<set<string>>, now: Time)
      modifies this`registered, repository, gateway
      ensures State() == Register(old(State()), c, items, capabilities, now)
    {
      if c !in gateway.agentOf { return; }
      var agentId := gateway.agentOf[c];
      if agentId !in gateway.agentSockets || gateway.agentSockets[agentId] != c { return; }
      repository.UpsertAll(items, agentId, now);
      var kinds := if capabilities.Some? then capabilities.value else LEGACY_ACTION_KINDS;
      gateway.agentCapabilities := gateway.agentCapabilities[agentId := kinds];
      registered := registered + {c};
      SendStreamDemandFor(Some(agentId));
    }

    method HandleFrame(c: Connection, d: DeviceId, writable: set<ViewerSocket>) returns (sent: set<ViewerSocket>)
      ensures sent == FrameTargets(State(), c, d, writable)
    {
      if c !in gateway.agentOf { return {}; }
      var agentId := gateway.agentOf[c];
      if agentId !in gateway.agentSockets || gateway.agentSockets[agentId] != c { return {}; }
      if d !in repository.rows || repository.rows[d].agentId != Some(agentId) { return {}; }
      sent := relay.Broadcast(d, writable);
    }
  }
}
