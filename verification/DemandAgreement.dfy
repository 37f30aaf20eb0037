/** Demand snapshots: the last one an agent has received or is about to receive on an open connection covers every
    viewed device it owns, and is exactly that set if no device is registered by two agents. */
module DemandAgreement {
  import opened Common
  import opened DevicesRepository
  import opened StreamsRelay
  import opened AgentsGateway
  import opened Server
  import opened ServerInvariant
  import opened StreamDemandGate
  import opened Farm
  import opened FarmInvariant
  import opened AgentLag
  import Exec = CommandExecutor

  function LastDemand(w: seq<ServerMessage>): Option<set<DeviceId>> {
    if w == [] then None
    else if w[|w| - 1].StreamDemand? then Some(w[|w| - 1].deviceIds)
    else LastDemand(w[..|w| - 1])
  }

  lemma {:induction false} LastDemandConcat(v: seq<ServerMessage>, w: seq<ServerMessage>)
    ensures LastDemand(v + w) == if LastDemand(w).Some? then LastDemand(w) else LastDemand(v)
  {
    if w == [] {
      assert v + w == v;
    } else {
      LastDemandConcat(v, w[..|w| - 1]);
      assert (v + w)[..|v + w| - 1] == v + w[..|w| - 1];
    }
  }

  /** The demand agent a works by once it has received everything now on its channel; None means it sends everything. */
  function LatestOf(gate: GateState, w: seq<ServerMessage>): Option<set<DeviceId>> {
    if LastDemand(w).Some? then LastDemand(w) else if gate.hasSnapshot then Some(gate.demanded) else None
  }

  ghost predicate Covers(latest: Option<set<DeviceId>>, demand: set<DeviceId>, exact: bool) {
    latest.Some? ==> demand <= latest.value && (exact ==> latest.value == demand)
  }

  ghost predicate DemandInv(f: Farm, a: AgentId, exact: bool)
    requires a in f.agents
  {
    f.agents[a].link.Some? && f.agents[a].link.value in f.server.gateway.open ==>
      var latest := LatestOf(f.agents[a].gate, Inbox(f, a));
      Covers(latest, Demand(f.server, a), exact) && (f.agents[a].link.value in f.server.registered ==> latest.Some?)
  }

  ghost predicate DemandsInv(f: Farm, exact: bool) {
    forall a :: a in f.agents ==> DemandInv(f, a, exact)
  }

  /** From s to t, connection c of agent a got a fresh snapshot whenever the agent's demand grew (or, if `exact`, changed). */
  ghost predicate Informs(s: ServerState, t: ServerState, a: AgentId, c: Connection, exact: bool) {
    && WireOf(s.gateway, c) <= WireOf(t.gateway, c)
    && var sent := LastDemand(WireOf(t.gateway, c)[|WireOf(s.gateway, c)|..]);
       if sent.Some? then Covers(sent, Demand(t, a), exact)
       else Covers(Some(Demand(s, a)), Demand(t, a), exact)
  }

  lemma InformsTransitive(s: ServerState, t: ServerState, u: ServerState, a: AgentId, c: Connection, exact: bool)
    requires Informs(s, t, a, c, exact) && Informs(t, u, a, c, exact)
    ensures Informs(s, u, a, c, exact)
  {
    var v, w, x := WireOf(s.gateway, c), WireOf(t.gateway, c), WireOf(u.gateway, c);
    assert x[|v|..] == w[|v|..] + x[|w|..];
    LastDemandConcat(w[|v|..], x[|w|..]);
  }

  lemma InformsKeepsDemand(s: ServerState, t: ServerState, a: AgentId, c: Connection, gate: GateState, exact: bool)
    requires Informs(s, t, a, c, exact)
    requires Covers(LatestOf(gate, WireOf(s.gateway, c)), Demand(s, a), exact)
    ensures Covers(LatestOf(gate, WireOf(t.gateway, c)), Demand(t, a), exact)
    ensures LatestOf(gate, WireOf(s.gateway, c)).Some? ==> LatestOf(gate, WireOf(t.gateway, c)).Some?
  {
    var v, w := WireOf(s.gateway, c), WireOf(t.gateway, c);
    assert w == v + w[|v|..];
    LastDemandConcat(v, w[|v|..]);
  }

  ghost predicate Registered(s: ServerState, a: AgentId, c: Connection) {
    a in s.gateway.sockets && s.gateway.sockets[a] == c && c in s.gateway.open
  }

  lemma NothingSentInforms(s: ServerState, t: ServerState, a: AgentId, c: Connection, exact: bool)
    requires WireOf(t.gateway, c) == WireOf(s.gateway, c) && Covers(Some(Demand(s, a)), Demand(t, a), exact)
    ensures Informs(s, t, a, c, exact)
  {
    var w := WireOf(s.gateway, c);
    assert w[|w|..] == [];
  }

  lemma SnapshotInforms(s: ServerState, a: AgentId, c: Connection, exact: bool)
    requires Registered(s, a, c)
    ensures Informs(s, SendDemand(s, Some(a)), a, c, exact)
    ensures LastDemand(WireOf(SendDemand(s, Some(a)).gateway, c)).Some?
  {
    var t := SendDemand(s, Some(a));
    assert WireOf(t.gateway, c)[|WireOf(s.gateway, c)|..] == [StreamDemand(Demand(s, a))];
    assert Demand(t, a) == Demand(s, a);
  }

  /** A change of one device's viewers: the owner is told at a boundary, nobody else's demand is touched. */
  lemma WithRelayInforms(s: ServerState, d: DeviceId, relay: RelayState, a: AgentId, c: Connection, exact: bool)
    requires SocketsInv(s.gateway) && Registered(s, a, c)
    requires forall x :: x != d ==> (x in relay.viewers <==> x in s.relay.viewers)
    ensures Informs(s, WithRelay(s, d, relay), a, c, exact)
  {
    var after, t := s.(relay := relay), WithRelay(s, d, relay);
    if AgentOf(s.devices, d) == Some(a) && (d in relay.viewers) != (d in s.relay.viewers) {
      SnapshotInforms(after, a, c, exact);
    } else {
      assert Demand(t, a) == Demand(s, a) by {
        assert forall x :: x in OwnedBy(s.devices, a) <==> AgentOf(s.devices, x) == Some(a);
      }
      NothingSentInforms(s, t, a, c, exact);
    }
  }

  lemma PublishInforms(s: ServerState, e: EndedEvent, a: AgentId, c: Connection, exact: bool)
    requires GatewayInv(s.gateway) && Registered(s, a, c)
    ensures Informs(s, PublishEnded(s, e), a, c, exact)
  {
    var closed := WithRelay(s, e.deviceId, CloseViewers(s.relay, e.deviceId, e.occupantId));
    WithRelayInforms(s, e.deviceId, CloseViewers(s.relay, e.deviceId, e.occupantId), a, c, exact);
    var t := PublishEnded(s, e);
    var v, w := WireOf(closed.gateway, c), WireOf(t.gateway, c);
    assert v <= w && (w[|v|..] == [] || w[|v|..] == [OccupancyEnded(e.deviceId, e.occupantId)]);
    assert LastDemand([OccupancyEnded(e.deviceId, e.occupantId)]).None?;
    assert Demand(t, a) == Demand(closed, a);
    InformsTransitive(s, closed, t, a, c, exact);
  }

  lemma {:induction false} PublishAllInforms(s: ServerState, list: seq<EndedOccupation>, reason: EndReason, a: AgentId, c: Connection, exact: bool)
    requires GatewayInv(s.gateway) && Registered(s, a, c)
    ensures Informs(s, PublishAll(s, list, reason), a, c, exact)
    ensures GatewayInv(PublishAll(s, list, reason).gateway) && Registered(PublishAll(s, list, reason), a, c)
  {
    if list == [] {
      NothingSentInforms(s, s, a, c, exact);
    } else {
      var init, last := list[..|list| - 1], list[|list| - 1];
      var mid, e := PublishAll(s, init, reason), EndedEvent(last.deviceId, last.occupantId, reason);
      PublishAllInforms(s, init, reason, a, c, exact);
      PublishInforms(mid, e, a, c, exact);
      PublishParts(mid, e);
      PublishKeepsGatewayInv(mid, e);
      InformsTransitive(s, mid, PublishEnded(mid, e), a, c, exact);
    }
  }

  ghost predicate SameOwners(t: Table, u: Table) {
    forall d :: AgentOf(t, d) == AgentOf(u, d)
  }

  lemma SameOwnersSameDemand(s: ServerState, t: Table, a: AgentId)
    requires SameOwners(s.devices, t)
    ensures Demand(s.(devices := t), a) == Demand(s, a)
  {
    forall d ensures d in OwnedBy(t, a) <==> d in OwnedBy(s.devices, a) {
      assert AgentOf(s.devices, d) == AgentOf(t, d);
    }
  }

  /** The ending steps: the rows keep their owners, then each end is published. */
  lemma VacateInforms(s: ServerState, t: Table, list: seq<EndedOccupation>, reason: EndReason, a: AgentId, c: Connection, exact: bool)
    requires GatewayInv(s.gateway) && Registered(s, a, c) && SameOwners(s.devices, t)
    ensures Informs(s, PublishAll(s.(devices := t), list, reason), a, c, exact)
  {
    var vacated := s.(devices := t);
    SameOwnersSameDemand(s, t, a);
    NothingSentInforms(s, vacated, a, c, exact);
    PublishAllInforms(vacated, list, reason, a, c, exact);
    InformsTransitive(s, vacated, PublishAll(vacated, list, reason), a, c, exact);
  }

  lemma EndStepInforms(s: ServerState, step: Step, a: AgentId, c: Connection, exact: bool)
    requires GatewayInv(s.gateway) && Registered(s, a, c) && (step.Releases? || step.SweepsIdle? || step.SweepsStale?)
    ensures Informs(s, ApplyToServer(s, step), a, c, exact)
  {
    match step
    case Releases(d, g) =>
      if CheckOccupant(s.devices, d, g).Done? {
        var vacated, list := s.(devices := VacateAll(s.devices, {d})), [EndedOccupation(d, g)];
        VacateInforms(s, VacateAll(s.devices, {d}), list, Released, a, c, exact);
        assert list[..0] == [];
        assert PublishAll(vacated, list, Released) == PublishEnded(PublishAll(vacated, [], Released), EndedEvent(d, g, Released));
      } else {
        NothingSentInforms(s, s, a, c, exact);
      }
    case SweepsIdle(cutoff, ended) => VacateInforms(s, VacateAll(s.devices, IdleIds(s.devices, cutoff)), ended, IdleExpired, a, c, exact);
    case SweepsStale(cutoff, ended) => VacateInforms(s, OfflineAll(s.devices, StaleIds(s.devices, cutoff)), ended, AgentStale, a, c, exact);
  }

  lemma RegisterInforms(f: Farm, step: Step, own: Ownership, a: AgentId, c: Connection, exact: bool)
    requires GatewayInv(f.server.gateway) && Registered(f.server, a, c) && step.ReceivesRegister?
    requires exact ==> Respects(f, step, own) && TableOwned(f.server.devices, own)
    ensures Informs(f.server, ApplyToServer(f.server, step), a, c, exact)
    ensures c !in f.server.registered && c in ApplyToServer(f.server, step).registered ==>
              LastDemand(WireOf(ApplyToServer(f.server, step).gateway, c)).Some?
  {
    var s, t := f.server, ApplyToServer(f.server, step);
    if IsCurrent(s.gateway, step.c) {
      var agentId := s.gateway.agentOf[step.c];
      var kinds := if step.capabilities.Some? then step.capabilities.value else LEGACY_ACTION_KINDS;
      var listed := s.(devices := UpsertMany(s.devices, step.items, agentId, step.now),
                       gateway := s.gateway.(capabilities := s.gateway.capabilities[agentId := kinds]),
                       registered := s.registered + {step.c});
      if agentId == a {
        SnapshotInforms(listed, a, c, exact);
      } else {
        forall d ensures
          && (d in OwnedBy(listed.devices, a) ==> d in OwnedBy(s.devices, a))
          && (exact && d in OwnedBy(s.devices, a) ==> d in OwnedBy(listed.devices, a))
        {
          UpsertManyAt(s.devices, step.items, agentId, step.now, d);
          assert AgentOf(s.devices, d) == Some(a) && exact ==> Owns(own, a, d);
        }
        NothingSentInforms(s, t, a, c, exact);
      }
    } else {
      NothingSentInforms(s, t, a, c, exact);
    }
  }

  /** The remaining server steps send no snapshot and leave the demand of an agent with an open connection alone. */
  lemma OtherStepInforms(f: Farm, step: Step, a: AgentId, c: Connection, exact: bool)
    requires GatewayInv(f.server.gateway) && Enabled(f, step) && IsServerStep(step) && Registered(f.server, a, c)
    requires c in ApplyToServer(f.server, step).gateway.open
    requires !EndsOrRegistersOrSends(step) && !step.ViewerJoins? && !step.ViewerLeaves?
    ensures Informs(f.server, ApplyToServer(f.server, step), a, c, exact)
  {
    hide PublishEnded, PublishAll, WithRelay, Register, Informs, AnswersInv, GatewayInv, ExecuteCommand;
    var s, t := f.server, ApplyToServer(f.server, step);
    forall d ensures d in OwnedBy(t.devices, a) <==> d in OwnedBy(s.devices, a) {
      assert AgentOf(s.devices, d) == Some(a) <==> AgentOf(t.devices, d) == Some(a);
    }
    assert Demand(t, a) == Demand(s, a);
    NothingSentInforms(s, t, a, c, exact);
  }

  lemma ExecuteInforms(s: ServerState, step: Step, a: AgentId, c: Connection, exact: bool)
    requires GatewayInv(s.gateway) && step.Executes?
    ensures Informs(s, ApplyToServer(s, step), a, c, exact)
  {
    var t := ApplyToServer(s, step);
    ExecuteWire(s, step);
    var v, w := WireOf(s.gateway, c), WireOf(t.gateway, c);
    assert w[|v|..] == [] || (|w[|v|..]| == 1 && w[|v|..][0].Command?);
    forall d ensures d in OwnedBy(t.devices, a) <==> d in OwnedBy(s.devices, a) {
      assert AgentOf(s.devices, d) == AgentOf(t.devices, d);
    }
    assert Demand(t, a) == Demand(s, a);
  }

  lemma ServerStepInforms(f: Farm, step: Step, own: Ownership, a: AgentId, c: Connection, exact: bool)
    requires GatewayInv(f.server.gateway) && Enabled(f, step) && IsServerStep(step) && Registered(f.server, a, c)
    requires c in ApplyToServer(f.server, step).gateway.open
    requires exact ==> Respects(f, step, own) && TableOwned(f.server.devices, own)
    ensures Informs(f.server, ApplyToServer(f.server, step), a, c, exact)
  {
    var s := f.server;
    if step.ReceivesRegister? {
      RegisterInforms(f, step, own, a, c, exact);
    } else if step.Executes? {
      ExecuteInforms(s, step, a, c, exact);
    } else if EndsOrRegistersOrSends(step) {
      EndStepInforms(s, step, a, c, exact);
    } else if step.ViewerJoins? {
      if OccupantOf(s.devices, step.device) == Some(step.occupantId) {
        WithRelayInforms(s, step.device, AddViewer(s.relay, step.device, step.occupantId, step.socket), a, c, exact);
      } else {
        NothingSentInforms(s, s, a, c, exact);
      }
    } else if step.ViewerLeaves? {
      WithRelayInforms(s, step.device, RemoveViewer(s.relay, step.device, step.socket), a, c, exact);
    } else {
      OtherStepInforms(f, step, a, c, exact);
    }
  }

  lemma ServerStepRegistered(f: Farm, step: Step)
    requires Enabled(f, step) && IsServerStep(step) && !step.ReceivesRegister?
    ensures ApplyToServer(f.server, step).registered == f.server.registered
  {
    match step
    case SweepsIdle(cutoff, ended) =>
      PublishAllKeepsRegistered(f.server.(devices := VacateAll(f.server.devices, IdleIds(f.server.devices, cutoff))), ended, IdleExpired);
    case SweepsStale(cutoff, ended) =>
      PublishAllKeepsRegistered(f.server.(devices := OfflineAll(f.server.devices, StaleIds(f.server.devices, cutoff))), ended, AgentStale);
    case _ =>
  }

  lemma ServerStepKeepsDemand(f: Farm, step: Step, own: Ownership, a: AgentId, exact: bool)
    requires FarmInv(f) && a in f.agents && DemandInv(f, a, exact) && Enabled(f, step) && IsServerStep(step)
    requires exact ==> Respects(f, step, own) && TableOwned(f.server.devices, own)
    ensures DemandInv(Apply(f, step), a, exact)
  {
    var t := ApplyToServer(f.server, step);
    if f.agents[a].link.Some? && f.agents[a].link.value in t.gateway.open {
      var c, gate := f.agents[a].link.value, f.agents[a].gate;
      OpenShrinks(f, step);
      assert AgentInv(f, a);
      ServerStepInforms(f, step, own, a, c, exact);
      InformsKeepsDemand(f.server, t, a, c, gate, exact);
      if step.ReceivesRegister? {
        RegisterInforms(f, step, own, a, c, exact);
      } else {
        ServerStepRegistered(f, step);
      }
    }
  }

  lemma LatestAfterReceive(gate: GateState, w: seq<ServerMessage>)
    requires w != []
    ensures LatestOf(if w[0].StreamDemand? then GateState(true, w[0].deviceIds) else gate, w[1..]) == LatestOf(gate, w)
  {
    assert w == [w[0]] + w[1..];
    LastDemandConcat([w[0]], w[1..]);
    assert [w[0]][..0] == [];
  }

  lemma DemandFrame(f: Farm, g: Farm, a: AgentId, exact: bool)
    requires a in f.agents && a in g.agents && DemandInv(f, a, exact)
    requires g.agents[a].link == f.agents[a].link && g.server.registered == f.server.registered
    requires Demand(g.server, a) == Demand(f.server, a)
    requires LatestOf(g.agents[a].gate, Inbox(g, a)) == LatestOf(f.agents[a].gate, Inbox(f, a))
    requires g.agents[a].link.Some? && g.agents[a].link.value in g.server.gateway.open ==> g.agents[a].link.value in f.server.gateway.open
    ensures DemandInv(g, a, exact)
  {
  }

  lemma DeliverKeepsDemand(f: Farm, b: AgentId, isRegistered: bool, isReady: bool, now: Time, a: AgentId, exact: bool)
    requires FarmInv(f) && Inbox(f, b) != [] && a in f.agents && DemandInv(f, a, exact)
    ensures DemandInv(DeliveredTo(f, b, isRegistered, isReady, now), a, exact)
  {
    hide ServerInv, WiresInv;
    var after := DeliveredTo(f, b, isRegistered, isReady, now);
    assert AgentInv(f, a) && AgentInv(f, b);
    if a == b {
      assert Inbox(after, a) == Inbox(f, a)[1..];
      LatestAfterReceive(f.agents[a].gate, Inbox(f, a));
    } else {
      assert Inbox(after, a) == Inbox(f, a);
    }
    DemandFrame(f, after, a, exact);
  }

  /** A fresh connection: the inbox is empty and the gate was reset, so the agent sends everything. */
  lemma OpenOwnDemand(f: Farm, a: AgentId, c: Connection, exact: bool)
    requires a in f.agents && AgentInv(f, a) && f.agents[a].link.None? && c !in f.server.registered
    ensures DemandInv(OpenedBy(f, a, c), a, exact)
  {
    assert Inbox(OpenedBy(f, a, c), a) == [];
  }

  lemma OpenKeepsDemand(f: Farm, b: AgentId, c: Connection, a: AgentId, exact: bool)
    requires AgentsInv(f) && f.server.registered <= f.server.gateway.agentOf.Keys
    requires b in f.agents && f.agents[b].link.None? && c !in f.server.gateway.agentOf
    requires a in f.agents && DemandInv(f, a, exact)
    ensures DemandInv(OpenedBy(f, b, c), a, exact)
  {
    assert AgentInv(f, a);
    if a == b {
      OpenOwnDemand(f, a, c, exact);
    } else {
      assert Inbox(OpenedBy(f, b, c), a) == Inbox(f, a);
      assert Demand(OpenedBy(f, b, c).server, a) == Demand(f.server, a);
      DemandFrame(f, OpenedBy(f, b, c), a, exact);
    }
  }

  lemma OwnStepKeepsDemand(f: Farm, b: AgentId, step: Step, a: AgentId, exact: bool)
    requires a in f.agents && b in f.agents && DemandInv(f, a, exact) && IsOwnStep(step) && OwnEnabled(f.agents[b], step)
    ensures DemandInv(WithAgent(f, b, OwnStep(f.agents[b], step)), a, exact)
  {
    var agent := OwnStep(f.agents[b], step);
    var after := WithAgent(f, b, agent);
    if a != b || agent.link.Some? {
      assert Inbox(after, a) == Inbox(f, a);
      DemandFrame(f, after, a, exact);
    }
  }

  lemma StepKeepsDemand(f: Farm, step: Step, own: Ownership, a: AgentId, exact: bool)
    requires FarmInv(f) && a in f.agents && DemandInv(f, a, exact) && Enabled(f, step)
    requires exact ==> Respects(f, step, own) && TableOwned(f.server.devices, own)
    ensures a in Apply(f, step).agents && DemandInv(Apply(f, step), a, exact)
  {
    if IsServerStep(step) {
      ServerStepKeepsDemand(f, step, own, a, exact);
    } else if step.Delivers? {
      DeliverKeepsDemand(f, step.agentId, step.isRegistered, step.isReady, step.now, a, exact);
    } else if step.AgentOpens? {
      OpenKeepsDemand(f, step.agentId, step.c, a, exact);
    } else {
      OwnStepKeepsDemand(f, step.agentId, step, a, exact);
    }
  }

  lemma StepKeepsAgents(f: Farm, step: Step)
    requires Enabled(f, step)
    ensures Apply(f, step).agents.Keys == f.agents.Keys
  {
  }

  /** A run, with stable ownership if snapshots are to be exact. */
  ghost predicate IsDemandRun(states: seq<Farm>, steps: seq<Step>, own: Ownership, exact: bool) {
    IsRun(states, steps) && (exact ==> IsOwnedRun(states, steps, own))
  }

  lemma RunStepDemand(states: seq<Farm>, steps: seq<Step>, own: Ownership, n: nat, a: AgentId, exact: bool)
    requires IsDemandRun(states, steps, own, exact) && n < |steps| && a in states[n].agents && DemandInv(states[n], a, exact)
    ensures a in states[n + 1].agents && DemandInv(states[n + 1], a, exact)
  {
    RunInv(states, steps, n);
    if exact { OwnedRunInv(states, steps, own, n); }
    StepKeepsDemand(states[n], steps[n], own, a, exact);
  }

  lemma RunStepAgents(states: seq<Farm>, steps: seq<Step>, n: nat)
    requires IsRun(states, steps) && n < |steps|
    ensures states[n + 1].agents.Keys == states[n].agents.Keys
  {
    StepKeepsAgents(states[n], steps[n]);
  }

  lemma {:induction false} RunDemand(states: seq<Farm>, steps: seq<Step>, own: Ownership, n: nat, a: AgentId, exact: bool)
    requires IsDemandRun(states, steps, own, exact) && n < |states| && a in states[n].agents
    ensures DemandInv(states[n], a, exact)
  {
    hide Apply;
    if n > 0 {
      RunStepAgents(states, steps, n - 1);
      RunDemand(states, steps, own, n - 1, a, exact);
      RunStepDemand(states, steps, own, n - 1, a, exact);
    }
  }

  /** The agent is connected and the server's end of the connection is open. */
  ghost predicate Connected(f: Farm, a: AgentId) {
    a in f.agents && f.agents[a].link.Some? && f.agents[a].link.value in f.server.gateway.open
  }

  /** In every run: once a connected agent has registered on its connection, the latest snapshot it has or will have
      contains every viewed device it owns. */
  lemma LatestSnapshotCoversDemand(states: seq<Farm>, steps: seq<Step>, n: nat, a: AgentId)
    requires IsRun(states, steps) && n < |states| && Connected(states[n], a)
    requires states[n].agents[a].link.value in states[n].server.registered
    ensures var latest := LatestOf(states[n].agents[a].gate, Inbox(states[n], a));
            latest.Some? && forall d :: AgentOf(states[n].server.devices, d) == Some(a) && InnerOf(states[n].server.relay, d) != map[] ==>
                              d in latest.value
  {
    hide Apply, Enabled;
    RunDemand(states, steps, map[], n, a, false);
    RunInv(states, steps, n);
    DemandIsViewed(states[n], a);
  }

  /** If moreover no device is registered by two agents, that snapshot is exactly the agent's viewed devices. */
  lemma LatestSnapshotIsDemand(states: seq<Farm>, steps: seq<Step>, own: Ownership, n: nat, a: AgentId)
    requires IsOwnedRun(states, steps, own) && n < |states| && Connected(states[n], a)
    requires states[n].agents[a].link.value in states[n].server.registered
    ensures var s, latest := states[n].server, LatestOf(states[n].agents[a].gate, Inbox(states[n], a));
            latest.Some? && forall d :: d in latest.value <==> AgentOf(s.devices, d) == Some(a) && InnerOf(s.relay, d) != map[]
  {
    hide Apply, Enabled;
    RunDemand(states, steps, own, n, a, true);
    RunInv(states, steps, n);
    DemandIsViewed(states[n], a);
  }

  /** The devices of the agent that somebody watches. */
  lemma DemandIsViewed(f: Farm, a: AgentId)
    requires FarmInv(f)
    ensures forall d :: d in Demand(f.server, a) <==> AgentOf(f.server.devices, d) == Some(a) && InnerOf(f.server.relay, d) != map[]
  {
  }

  /** So with no snapshot left on the channel the gate of a connected and registered agent passes exactly those of its devices that
      somebody watches. */
  lemma GatePassesExactlyViewed(states: seq<Farm>, steps: seq<Step>, own: Ownership, n: nat, a: AgentId, d: DeviceId)
    requires IsOwnedRun(states, steps, own) && n < |states| && Connected(states[n], a)
    requires states[n].agents[a].link.value in states[n].server.registered
    requires forall i :: 0 <= i < |Inbox(states[n], a)| ==> !Inbox(states[n], a)[i].StreamDemand?
    ensures Passes(states[n].agents[a].gate, d)
            <==> AgentOf(states[n].server.devices, d) == Some(a) && InnerOf(states[n].server.relay, d) != map[]
  {
    hide Apply, Enabled;
    LatestSnapshotIsDemand(states, steps, own, n, a);
    NoSnapshotLeft(Inbox(states[n], a));
  }

  /** No viewed device starves: once the channel holds no snapshot any more, the gate of the connected owner lets the
      device's frames pass, whether or not the agent has registered. */
  lemma NoViewedDeviceStarves(states: seq<Farm>, steps: seq<Step>, n: nat, a: AgentId, d: DeviceId)
    requires IsRun(states, steps) && n < |states| && Connected(states[n], a)
    requires forall i :: 0 <= i < |Inbox(states[n], a)| ==> !Inbox(states[n], a)[i].StreamDemand?
    requires AgentOf(states[n].server.devices, d) == Some(a) && d in states[n].server.relay.viewers
    ensures Passes(states[n].agents[a].gate, d)
  {
    RunDemand(states, steps, map[], n, a, false);
    NoSnapshotLeft(Inbox(states[n], a));
    assert d in Demand(states[n].server, a);
  }

  lemma {:induction false} NoSnapshotLeft(w: seq<ServerMessage>)
    requires forall i :: 0 <= i < |w| ==> !w[i].StreamDemand?
    ensures LastDemand(w).None?
  {
    if w != [] { NoSnapshotLeft(w[..|w| - 1]); }
  }
}
