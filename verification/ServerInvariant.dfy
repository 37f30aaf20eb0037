/** What every operation of the server keeps: each occupation is active, due to be published, or ended by exactly
    one event; viewers and pending commands belong to the current occupant; every command is answered at most once. */
module ServerInvariant {
  import opened Common
  import opened DevicesRepository
  import opened StreamsRelay
  import opened AgentsGateway
  import opened Server

  /** Occupations that have left the table but whose end event is still to be published in the same callback. */
  type Due = set<EndedOccupation>

  ghost predicate EndedIn(events: seq<EndedEvent>, g: Generation) {
    exists i :: 0 <= i < |events| && events[i].occupantId == g
  }

  ghost predicate IsEnded(s: ServerState, g: Generation) {
    EndedIn(s.ended, g)
  }

  ghost predicate IsActive(s: ServerState, d: DeviceId, g: Generation) {
    OccupantOf(s.devices, d) == Some(g)
  }

  /** Occupation g of d may still have viewers and pending commands. */
  ghost predicate IsLive(s: ServerState, due: Due, d: DeviceId, g: Generation) {
    IsActive(s, d, g) || EndedOccupation(d, g) in due
  }

  ghost predicate RowInv(device: Device) {
    && device.occupantId.Some? == device.occupiedAt.Some? == device.lastActivityAt.Some?
    && (device.isOnline ==> device.agentId.Some?)
  }

  /** The row's occupation was issued for this device, after all earlier ones of the device ended. */
  ghost predicate OccupantInv(s: ServerState, d: DeviceId) {
    OccupantOf(s.devices, d).Some? ==>
      var g := OccupantOf(s.devices, d).value;
      g < |s.issued| && s.issued[g] == d && !IsEnded(s, g) && (forall later :: g < later < |s.issued| ==> s.issued[later] != d)
  }

  ghost predicate OccupationInv(s: ServerState, due: Due) {
    && (forall d :: d in s.devices ==> RowInv(s.devices[d]))
    && (forall d :: d in s.devices ==> OccupantInv(s, d))
    && (forall i :: 0 <= i < |s.ended| ==>
          s.ended[i].occupantId < |s.issued| && s.issued[s.ended[i].occupantId] == s.ended[i].deviceId)
    && (forall i, j :: 0 <= i < j < |s.ended| ==> s.ended[i].occupantId != s.ended[j].occupantId)
    && (forall e :: e in due ==>
          && e.occupantId < |s.issued| && s.issued[e.occupantId] == e.deviceId
          && !IsEnded(s, e.occupantId) && !IsActive(s, e.deviceId, e.occupantId))
    && (forall g: Generation {:trigger s.issued[g]} :: g < |s.issued| ==> IsLive(s, due, s.issued[g], g) || IsEnded(s, g))
  }

  ghost predicate AuthorityInv(s: ServerState, due: Due) {
    && (forall d, v :: d in s.relay.viewers && v in s.relay.viewers[d] ==> IsLive(s, due, d, s.relay.viewers[d][v]))
    && (forall r :: r in s.gateway.pending ==> IsLive(s, due, s.gateway.pending[r].deviceId, s.gateway.pending[r].occupantId))
  }

  ghost predicate ServerInv(s: ServerState, due: Due) {
    OccupationInv(s, due) && AuthorityInv(s, due) && RelayInv(s.relay) && GatewayInv(s.gateway)
  }

  lemma EmptyServerInv()
    ensures ServerInv(EMPTY_SERVER, {})
  {
  }

  /** What publishing leaves alone, and what it takes away from the viewers and the pending commands. */
  lemma PublishParts(s: ServerState, e: EndedEvent)
    ensures var after := PublishEnded(s, e);
      && after.devices == s.devices && after.issued == s.issued && after.registered == s.registered
      && after.ended == s.ended + [e]
      && after.relay == CloseViewers(s.relay, e.deviceId, e.occupantId)
      && after.gateway.pending == s.gateway.pending - PendingOfOccupation(s.gateway, e.deviceId, e.occupantId)
      && after.gateway.sockets == s.gateway.sockets && after.gateway.agentOf == s.gateway.agentOf
      && after.gateway.open == s.gateway.open
  {
  }

  /** A change of viewers and a registration leave the commands and the sockets alone. */
  ghost predicate SameCommands(g: GatewayState, h: GatewayState) {
    && h.pending == g.pending && h.timers == g.timers && h.answers == g.answers
    && h.sockets == g.sockets && h.agentOf == g.agentOf && h.open == g.open
  }

  lemma WithRelayParts(s: ServerState, d: DeviceId, relay: RelayState)
    ensures SameCommands(s.gateway, WithRelay(s, d, relay).gateway)
  {
  }

  lemma RegisterParts(s: ServerState, c: Connection, items: seq<RegisterInput>, capabilities: Option<set<string>>, now: Time)
    ensures SameCommands(s.gateway, Register(s, c, items, capabilities, now).gateway)
  {
    hide UpsertMany, Demand;
  }

  lemma PublishKeepsGatewayInv(s: ServerState, e: EndedEvent)
    requires GatewayInv(s.gateway)
    ensures GatewayInv(PublishEnded(s, e).gateway)
  {
    var closed := WithRelay(s, e.deviceId, CloseViewers(s.relay, e.deviceId, e.occupantId));
    assert GatewayInv(closed.gateway) by {
      var agentId := AgentOf(s.devices, e.deviceId);
      if agentId.Some? {
        SendKeepsInv(s.gateway, agentId, StreamDemand(Demand(closed, agentId.value)));
      }
    }
    var requests := PendingOfOccupation(closed.gateway, e.deviceId, e.occupantId);
    ResolveKeepsInv(closed.gateway, requests, AgentsGateway.OccupationEnded);
    SendKeepsInv(Resolve(closed.gateway, requests, AgentsGateway.OccupationEnded), AgentOf(closed.devices, e.deviceId),
                 AgentsGateway.OccupancyEnded(e.deviceId, e.occupantId));
  }

  lemma PublishKeepsOccupationInv(s: ServerState, due: Due, e: EndedEvent)
    requires OccupationInv(s, due) && EndedOccupation(e.deviceId, e.occupantId) in due
    ensures OccupationInv(PublishEnded(s, e), due - {EndedOccupation(e.deviceId, e.occupantId)})
  {
    hide PublishEnded;
    var after := PublishEnded(s, e);
    PublishParts(s, e);
    assert forall g :: IsEnded(after, g) <==> IsEnded(s, g) || g == e.occupantId by {
      assert after.ended[|s.ended|] == e;
      forall g | IsEnded(s, g) ensures IsEnded(after, g) {
        var i :| 0 <= i < |s.ended| && s.ended[i].occupantId == g;
        assert after.ended[i].occupantId == g;
      }
    }
    forall d | d in after.devices ensures OccupantInv(after, d) {
      assert OccupantInv(s, d);
    }
    assert !IsEnded(s, e.occupantId);
  }

  lemma PublishKeepsAuthorityInv(s: ServerState, due: Due, e: EndedEvent)
    requires AuthorityInv(s, due) && RelayInv(s.relay)
    ensures AuthorityInv(PublishEnded(s, e), due - {EndedOccupation(e.deviceId, e.occupantId)})
  {
    hide PublishEnded, RelayInv;
    var after, rest := PublishEnded(s, e), due - {EndedOccupation(e.deviceId, e.occupantId)};
    PublishParts(s, e);
    forall d, v | d in after.relay.viewers && v in after.relay.viewers[d] ensures IsLive(after, rest, d, after.relay.viewers[d][v]) {
      assert d in s.relay.viewers && v in s.relay.viewers[d] && IsLive(s, due, d, s.relay.viewers[d][v]);
    }
    forall r | r in after.gateway.pending
      ensures IsLive(after, rest, after.gateway.pending[r].deviceId, after.gateway.pending[r].occupantId)
    {
      assert IsLive(s, due, s.gateway.pending[r].deviceId, s.gateway.pending[r].occupantId);
    }
  }

  /** Publishing an end settles one due occupation: afterwards nothing live refers to it. */
  lemma PublishKeepsInv(s: ServerState, due: Due, e: EndedEvent)
    requires ServerInv(s, due) && EndedOccupation(e.deviceId, e.occupantId) in due
    ensures ServerInv(PublishEnded(s, e), due - {EndedOccupation(e.deviceId, e.occupantId)})
  {
    PublishParts(s, e);
    PublishKeepsOccupationInv(s, due, e);
    PublishKeepsAuthorityInv(s, due, e);
    PublishKeepsGatewayInv(s, e);
    StreamsRelay.OperationsKeepInv(s.relay, e.deviceId, e.occupantId, 0);
  }

  function DueOf(list: seq<EndedOccupation>): Due {
    set e | e in list
  }

  lemma {:induction false} PublishAllKeepsInv(s: ServerState, due: Due, list: seq<EndedOccupation>, reason: EndReason)
    requires ServerInv(s, due) && Distinct(list) && DueOf(list) <= due
    ensures ServerInv(PublishAll(s, list, reason), due - DueOf(list))
    ensures PublishAll(s, list, reason).devices == s.devices && PublishAll(s, list, reason).issued == s.issued
  {
    hide PublishEnded;
    if list == [] {
      assert due - DueOf(list) == due;
    } else {
      var init, last := list[..|list| - 1], list[|list| - 1];
      assert list == init + [last];
      assert DueOf(list) == DueOf(init) + {last} by {
        assert last in list;
        forall e | e in init ensures e in list {}
      }
      PublishAllKeepsInv(s, due, init, reason);
      var mid := PublishAll(s, init, reason);
      var e := EndedEvent(last.deviceId, last.occupantId, reason);
      assert last in due - DueOf(init);
      PublishKeepsInv(mid, due - DueOf(init), e);
      PublishParts(mid, e);
      assert due - DueOf(init) - {last} == due - DueOf(list);
    }
  }

  ghost predicate SameOccupants(t: Table, u: Table) {
    forall d {:trigger OccupantOf(u, d)} :: OccupantOf(u, d) == OccupantOf(t, d)
  }

  ghost predicate RowsInv(t: Table) {
    forall d :: d in t ==> RowInv(t[d])
  }

  /** A table change that leaves the occupants alone leaves the rest of the invariant alone. */
  lemma SameOccupantsKeepsInv(s: ServerState, due: Due, t: Table)
    requires ServerInv(s, due) && SameOccupants(s.devices, t) && RowsInv(t)
    ensures ServerInv(s.(devices := t), due)
  {
    var after := s.(devices := t);
    forall d | d in t ensures OccupantInv(after, d) {
      assert OccupantOf(t, d) == OccupantOf(s.devices, d);
      if d in s.devices { assert OccupantInv(s, d); }
    }
    assert forall d, g :: IsActive(after, d, g) <==> IsActive(s, d, g);
    assert forall g :: IsEnded(after, g) <==> IsEnded(s, g);
  }

  /** The sweeps and the release empty some rows; what those carried becomes due. */
  lemma VacateMakesDue(s: ServerState, t: Table, ids: set<DeviceId>, list: seq<EndedOccupation>)
    requires ServerInv(s, {}) && Enumerates(list, s.devices, ids)
    requires t.Keys == s.devices.Keys && RowsInv(t)
    requires forall d :: d in t ==> t[d].occupantId == if d in ids then None else s.devices[d].occupantId
    ensures ServerInv(s.(devices := t), DueOf(list)) && Distinct(list)
  {
    var after, due := s.(devices := t), DueOf(list);
    assert forall g :: IsEnded(after, g) <==> IsEnded(s, g);
    assert forall d, g :: IsActive(s, d, g) ==> IsLive(after, due, d, g) by {
      forall d, g | IsActive(s, d, g) ensures IsLive(after, due, d, g) {
        if d in ids { assert EndedOccupation(d, g) in list; }
      }
    }
    forall d | d in t ensures OccupantInv(after, d) {
      assert OccupantInv(s, d);
    }
    forall e | e in due
      ensures e.occupantId < |s.issued| && s.issued[e.occupantId] == e.deviceId
              && !IsEnded(after, e.occupantId) && !IsActive(after, e.deviceId, e.occupantId)
    {
      assert OccupantInv(s, e.deviceId);
    }
    forall g: Generation | g < |after.issued| ensures IsLive(after, due, after.issued[g], g) || IsEnded(after, g) {
      assert IsLive(s, {}, s.issued[g], g) || IsEnded(s, g);
    }
  }

  lemma ReleaseKeepsInv(s: ServerState, d: DeviceId, g: Generation)
    requires ServerInv(s, {})
    ensures ServerInv(ReleaseDevice(s, d, g), {})
  {
    if CheckOccupant(s.devices, d, g).Done? {
      var list := [EndedOccupation(d, g)];
      var vacated := VacateAll(s.devices, {d});
      VacateMakesDue(s, vacated, {d}, list);
      assert DueOf(list) == {EndedOccupation(d, g)};
      PublishKeepsInv(s.(devices := vacated), DueOf(list), EndedEvent(d, g, Released));
      assert DueOf(list) - {EndedOccupation(d, g)} == {};
    }
  }

  lemma SweepsKeepInv(s: ServerState, cutoff: Time, list: seq<EndedOccupation>)
    requires ServerInv(s, {})
    ensures Enumerates(list, s.devices, IdleIds(s.devices, cutoff)) ==> ServerInv(ExpireIdle(s, cutoff, list), {})
    ensures Enumerates(list, s.devices, StaleIds(s.devices, cutoff)) ==> ServerInv(ExpireStale(s, cutoff, list), {})
  {
    hide PublishAll, DueOf, Enumerates;
    if Enumerates(list, s.devices, IdleIds(s.devices, cutoff)) {
      var t := VacateAll(s.devices, IdleIds(s.devices, cutoff));
      VacateMakesDue(s, t, IdleIds(s.devices, cutoff), list);
      PublishAllKeepsInv(s.(devices := t), DueOf(list), list, IdleExpired);
      assert DueOf(list) - DueOf(list) == {};
    }
    if Enumerates(list, s.devices, StaleIds(s.devices, cutoff)) {
      var t := OfflineAll(s.devices, StaleIds(s.devices, cutoff));
      VacateMakesDue(s, t, StaleIds(s.devices, cutoff), list);
      PublishAllKeepsInv(s.(devices := t), DueOf(list), list, AgentStale);
      assert DueOf(list) - DueOf(list) == {};
    }
  }

  lemma OccupyKeepsInv(s: ServerState, d: DeviceId, now: Time)
    requires ServerInv(s, {}) && d in s.devices && s.devices[d].occupantId.None?
    ensures ServerInv(OccupyDevice(s, d, now), {})
  {
    var after := OccupyDevice(s, d, now);
    assert forall g :: IsEnded(after, g) <==> IsEnded(s, g);
    assert forall x, g :: IsActive(s, x, g) ==> IsActive(after, x, g);
    forall x | x in after.devices ensures OccupantInv(after, x) {
      assert OccupantInv(s, x);
    }
    forall g: Generation | g < |after.issued| ensures IsLive(after, {}, after.issued[g], g) || IsEnded(after, g) {
      if g < |s.issued| { assert IsLive(s, {}, s.issued[g], g) || IsEnded(s, g); }
    }
  }

  lemma WithRelayKeepsInv(s: ServerState, due: Due, d: DeviceId, relay: RelayState)
    requires ServerInv(s, due) && RelayInv(relay)
    requires forall x, v :: x in relay.viewers && v in relay.viewers[x] ==> IsLive(s, due, x, relay.viewers[x][v])
    ensures ServerInv(WithRelay(s, d, relay), due)
  {
    hide GatewayInv;
    var after := s.(relay := relay);
    assert ServerInv(after, due) by {
      assert forall g :: IsEnded(after, g) <==> IsEnded(s, g);
      forall x | x in after.devices ensures OccupantInv(after, x) {
        assert OccupantInv(s, x);
      }
    }
    SendDemandKeepsInv(after, due, AgentOf(s.devices, d));
  }

  lemma SendDemandKeepsInv(s: ServerState, due: Due, agentId: Option<AgentId>)
    requires ServerInv(s, due)
    ensures ServerInv(SendDemand(s, agentId), due)
  {
    if agentId.Some? {
      SendKeepsInv(s.gateway, agentId, StreamDemand(Demand(s, agentId.value)));
      WithGatewayKeepsInv(s, due, SendDemand(s, agentId).gateway);
    }
  }

  /** A gateway change after which every pending command is live. */
  lemma WithGatewayKeepsInv(s: ServerState, due: Due, gateway: GatewayState)
    requires ServerInv(s, due) && GatewayInv(gateway)
    requires forall r :: r in gateway.pending ==> IsLive(s, due, gateway.pending[r].deviceId, gateway.pending[r].occupantId)
    ensures ServerInv(s.(gateway := gateway), due)
  {
    var after := s.(gateway := gateway);
    assert forall g :: IsEnded(after, g) <==> IsEnded(s, g);
    forall x | x in after.devices ensures OccupantInv(after, x) {
      assert OccupantInv(s, x);
    }
  }

  lemma ConnectViewerKeepsInv(s: ServerState, d: DeviceId, g: Generation, v: ViewerSocket)
    requires ServerInv(s, {})
    ensures ServerInv(ConnectViewer(s, d, g, v), {})
  {
    if OccupantOf(s.devices, d) == Some(g) {
      StreamsRelay.OperationsKeepInv(s.relay, d, g, v);
      var relay := AddViewer(s.relay, d, g, v);
      forall x, w | x in relay.viewers && w in relay.viewers[x] ensures IsLive(s, {}, x, relay.viewers[x][w]) {
        if (x, w) != (d, v) { assert IsLive(s, {}, x, s.relay.viewers[x][w]); }
      }
      WithRelayKeepsInv(s, {}, d, relay);
    }
  }

  lemma DisconnectViewerKeepsInv(s: ServerState, d: DeviceId, v: ViewerSocket)
    requires ServerInv(s, {})
    ensures ServerInv(DisconnectViewer(s, d, v), {})
  {
    if d in s.relay.viewers {
      var relay := RemoveViewer(s.relay, d, v);
      SettleKeepsInv(s.relay, d, s.relay.viewers[d] - {v});
      forall x, w | x in relay.viewers && w in relay.viewers[x] ensures IsLive(s, {}, x, relay.viewers[x][w]) {
        assert x in s.relay.viewers && w in s.relay.viewers[x] && relay.viewers[x][w] == s.relay.viewers[x][w];
        assert IsLive(s, {}, x, s.relay.viewers[x][w]);
      }
      WithRelayKeepsInv(s, {}, d, relay);
    }
  }

  lemma RenewKeepsInv(s: ServerState, d: DeviceId, g: Generation, now: Time)
    requires ServerInv(s, {})
    ensures ServerInv(RenewDevice(s, d, g, now), {})
  {
    if CheckOccupant(s.devices, d, g).Done? {
      SameOccupantsKeepsInv(s, {}, Renew(s.devices, d, now));
    }
  }

  lemma ExecuteKeepsInv(s: ServerState, d: DeviceId, g: Generation, action: Action, r: RequestId, now: Time)
    requires ServerInv(s, {}) && r !in s.gateway.answers
    ensures ServerInv(ExecuteCommand(s, d, g, action, r, now), {})
  {
    hide AnswersInv, SocketsInv;
    if ExecuteResultOf(s, d, g, action) !in {NoDevice, WrongOccupant, Offline} {
      var renewed := s.(devices := Renew(s.devices, d, now));
      SameOccupantsKeepsInv(s, {}, renewed.devices);
      var agentId := s.devices[d].agentId.value;
      SendCommandKeepsInv(s.gateway, agentId, d, g, action, r);
      assert IsActive(renewed, d, g);
      WithGatewayKeepsInv(renewed, {}, SendCommand(s.gateway, agentId, d, g, action, r));
    }
  }

  lemma ConnectAgentKeepsInv(s: ServerState, agentId: AgentId, c: Connection)
    requires ServerInv(s, {}) && c !in s.gateway.agentOf
    ensures ServerInv(ConnectAgent(s, agentId, c), {})
  {
    hide RelayInv;
    ConnectKeepsInv(s.gateway, agentId, c);
    WithGatewayKeepsInv(s, {}, Connect(s.gateway, agentId, c));
  }

  lemma SocketDownKeepsInv(s: ServerState, c: Connection)
    requires ServerInv(s, {})
    ensures ServerInv(SocketDown(s, c), {})
  {
    hide RelayInv;
    WithGatewayKeepsInv(s, {}, SocketDown(s, c).gateway);
  }

  lemma DisconnectAgentKeepsInv(s: ServerState, c: Connection)
    requires ServerInv(s, {})
    ensures ServerInv(DisconnectAgent(s, c), {})
  {
    hide RelayInv;
    DisconnectKeepsInv(s.gateway, c);
    WithGatewayKeepsInv(s, {}, Disconnect(s.gateway, c));
    if IsCurrent(s.gateway, c) {
      var after := s.(gateway := Disconnect(s.gateway, c));
      SameOccupantsKeepsInv(after, {}, AgentOffline(s.devices, s.gateway.agentOf[c]));
    }
  }

  lemma UpsertKeepsInv(s: ServerState, items: seq<RegisterInput>, agentId: AgentId, now: Time)
    requires ServerInv(s, {})
    ensures ServerInv(s.(devices := UpsertMany(s.devices, items, agentId, now)), {})
  {
    var rows := UpsertMany(s.devices, items, agentId, now);
    forall d ensures OccupantOf(rows, d) == OccupantOf(s.devices, d) && (d in rows ==> RowInv(rows[d])) {
      UpsertManyAt(s.devices, items, agentId, now, d);
    }
    SameOccupantsKeepsInv(s, {}, rows);
  }

  lemma BookkeepingKeepsInv(s: ServerState, capabilities: map<AgentId, set<string>>, registered: set<Connection>)
    requires ServerInv(s, {})
    ensures ServerInv(s.(gateway := s.gateway.(capabilities := capabilities), registered := registered), {})
  {
    var after := s.(gateway := s.gateway.(capabilities := capabilities), registered := registered);
    assert forall x :: IsEnded(after, x) <==> IsEnded(s, x);
    forall x | x in after.devices ensures OccupantInv(after, x) {
      assert OccupantInv(s, x);
    }
  }

  lemma RegisterKeepsInv(s: ServerState, c: Connection, items: seq<RegisterInput>, capabilities: Option<set<string>>, now: Time)
    requires ServerInv(s, {})
    ensures ServerInv(Register(s, c, items, capabilities, now), {})
  {
    if IsCurrent(s.gateway, c) {
      var agentId := s.gateway.agentOf[c];
      var kinds := if capabilities.Some? then capabilities.value else LEGACY_ACTION_KINDS;
      var listed := s.(devices := UpsertMany(s.devices, items, agentId, now));
      UpsertKeepsInv(s, items, agentId, now);
      BookkeepingKeepsInv(listed, s.gateway.capabilities[agentId := kinds], s.registered + {c});
      SendDemandKeepsInv(listed.(gateway := s.gateway.(capabilities := s.gateway.capabilities[agentId := kinds]),
                                 registered := s.registered + {c}), {}, Some(agentId));
    }
  }

  lemma MessagesKeepInv(s: ServerState, c: Connection, ids: set<DeviceId>, now: Time, r: RequestId, outcome: CommandOutcome)
    requires ServerInv(s, {})
    ensures ServerInv(HandleHeartbeat(s, c, ids, now), {})
    ensures ServerInv(HandleResult(s, c, r, outcome), {})
    ensures r in s.gateway.timers ==> ServerInv(CommandTimesOut(s, r), {})
  {
    hide SocketsInv;
    if IsCurrent(s.gateway, c) {
      SameOccupantsKeepsInv(s, {}, Heartbeat(s.devices, ids, s.gateway.agentOf[c], now));
      if r in s.gateway.pending {
        ResolveKeepsInv(s.gateway, {r}, outcome);
      }
      WithGatewayKeepsInv(s, {}, ResolveCommand(s.gateway, s.gateway.agentOf[c], r, outcome));
    }
    if r in s.gateway.timers {
      ResolveKeepsInv(s.gateway, {r}, TimedOut);
      WithGatewayKeepsInv(s, {}, Resolve(s.gateway, {r}, TimedOut));
    }
  }
}
