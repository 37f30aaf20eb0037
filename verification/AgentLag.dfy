/** Runs in which each device is registered by one agent: what an agent remembers lags behind the server only by what
    is in flight on its connection, and only the owner ever starts a device's commands. */
module AgentLag {
  import opened Common
  import opened DevicesRepository
  import opened StreamsRelay
  import opened AgentsGateway
  import opened Server
  import opened ServerInvariant
  import opened StreamDemandGate
  import opened Farm
  import opened FarmInvariant
  import opened GhostInput
  import Exec = CommandExecutor

  /** `own` names the one agent that may register a device. */
  type Ownership = map<DeviceId, AgentId>

  ghost predicate Respects(f: Farm, step: Step, own: Ownership) {
    step.ReceivesRegister? && IsCurrent(f.server.gateway, step.c) ==>
      forall d :: d in RegisteredIds(step.items) ==> d in own && own[d] == f.server.gateway.agentOf[step.c]
  }

  ghost predicate IsOwnedRun(states: seq<Farm>, steps: seq<Step>, own: Ownership) {
    IsRun(states, steps) && forall i :: 0 <= i < |steps| ==> Respects(states[i], steps[i], own)
  }

  ghost predicate Owns(own: Ownership, a: AgentId, d: DeviceId) {
    d in own && own[d] == a
  }

  ghost predicate TableOwned(t: Table, own: Ownership) {
    forall d :: AgentOf(t, d).Some? ==> Owns(own, AgentOf(t, d).value, d)
  }

  /** The server would still tell agent a if occupation g of d ended. */
  ghost predicate Current(s: ServerState, due: Due, a: AgentId, d: DeviceId, g: Generation) {
    IsLive(s, due, d, g) && AgentOf(s.devices, d) == Some(a)
  }

  /** What the agent remembers, and what it has yet to receive, is current or followed by its end notice. */
  ghost predicate LagOn(s: ServerState, due: Due, a: AgentId, occupations: map<DeviceId, Generation>, w: seq<ServerMessage>) {
    && (forall d :: d in occupations ==> Current(s, due, a, d, occupations[d]) || OccupancyEnded(d, occupations[d]) in w)
    && (forall m :: m in w && m.Command? ==>
          Current(s, due, a, m.deviceId, m.occupantId) || OccupancyEnded(m.deviceId, m.occupantId) in w)
  }

  ghost predicate LagInv(f: Farm, a: AgentId)
    requires a in f.agents
  {
    f.agents[a].link.Some? && f.agents[a].link.value in f.server.gateway.open ==>
      LagOn(f.server, {}, a, f.agents[a].executor.occupations, Inbox(f, a))
  }

  /** From s to t, connection c of agent a was told of everything that stopped being current. */
  ghost predicate Tells(s: ServerState, due: Due, t: ServerState, rest: Due, a: AgentId, c: Connection) {
    && WireOf(s.gateway, c) <= WireOf(t.gateway, c)
    && (forall d, g :: Current(s, due, a, d, g) ==> Current(t, rest, a, d, g) || OccupancyEnded(d, g) in WireOf(t.gateway, c))
    && (forall m :: m in WireOf(t.gateway, c) && m.Command? ==>
          m in WireOf(s.gateway, c) || Current(t, rest, a, m.deviceId, m.occupantId)
          || OccupancyEnded(m.deviceId, m.occupantId) in WireOf(t.gateway, c))
  }

  lemma TellsKeepsLag(s: ServerState, due: Due, t: ServerState, rest: Due, a: AgentId, c: Connection, occupations: map<DeviceId, Generation>)
    requires LagOn(s, due, a, occupations, WireOf(s.gateway, c)) && Tells(s, due, t, rest, a, c)
    ensures LagOn(t, rest, a, occupations, WireOf(t.gateway, c))
  {
    var v, w := WireOf(s.gateway, c), WireOf(t.gateway, c);
    assert forall m :: m in v ==> m in w;
  }

  lemma TellsTransitive(s: ServerState, due: Due, t: ServerState, mid: Due, u: ServerState, rest: Due, a: AgentId, c: Connection)
    requires Tells(s, due, t, mid, a, c) && Tells(t, mid, u, rest, a, c)
    ensures Tells(s, due, u, rest, a, c)
  {
    var v, w, x := WireOf(s.gateway, c), WireOf(t.gateway, c), WireOf(u.gateway, c);
    assert forall m :: m in w ==> m in x;
  }

  /** Steps that change neither occupants nor owners tell everything trivially. */
  lemma SteadyTells(s: ServerState, due: Due, t: ServerState, a: AgentId, c: Connection)
    requires Quiet(s, t) && c in s.gateway.wire
    requires forall d, g :: Current(s, due, a, d, g) ==> Current(t, due, a, d, g)
    ensures Tells(s, due, t, due, a, c)
  {
    var before, after := s.gateway.wire[c], t.gateway.wire[c];
    assert AppendsQuietly(t, before, after);
    forall m | m in after && m.Command? ensures m in before {
      var i :| 0 <= i < |after| && after[i] == m;
      assert i < |before| && before[i] == m;
    }
  }

  lemma PublishNotifies(s: ServerState, e: EndedEvent, a: AgentId, c: Connection)
    requires SocketsInv(s.gateway) && a in s.gateway.sockets && s.gateway.sockets[a] == c && c in s.gateway.open
    ensures AgentOf(s.devices, e.deviceId) == Some(a) ==> OccupancyEnded(e.deviceId, e.occupantId) in WireOf(PublishEnded(s, e).gateway, c)
  {
    var after := WireOf(PublishEnded(s, e).gateway, c);
    if AgentOf(s.devices, e.deviceId) == Some(a) { assert after[|after| - 1] == OccupancyEnded(e.deviceId, e.occupantId); }
  }

  /** Publishing an end puts the notice on the channel of the device's owner. */
  lemma PublishTells(s: ServerState, due: Due, e: EndedEvent, a: AgentId, c: Connection)
    requires GatewayInv(s.gateway) && EndedOccupation(e.deviceId, e.occupantId) in due
    requires a in s.gateway.sockets && s.gateway.sockets[a] == c && c in s.gateway.open
    ensures Tells(s, due, PublishEnded(s, e), due - {EndedOccupation(e.deviceId, e.occupantId)}, a, c)
  {
    hide PublishEnded, AnswersInv;
    var t := PublishEnded(s, e);
    PublishParts(s, e);
    PublishIsQuiet(s, e);
    PublishNotifies(s, e, a, c);
    var before, after := s.gateway.wire[c], t.gateway.wire[c];
    assert AppendsQuietly(t, before, after);
    forall m | m in after && m.Command? ensures m in before {
      var i :| 0 <= i < |after| && after[i] == m;
      assert i < |before| && before[i] == m;
    }
  }

  lemma {:induction false} PublishAllTells(s: ServerState, list: seq<EndedOccupation>, reason: EndReason, due: Due, a: AgentId, c: Connection)
    requires ServerInv(s, due) && Distinct(list) && DueOf(list) <= due
    requires a in s.gateway.sockets && s.gateway.sockets[a] == c && c in s.gateway.open
    ensures Tells(s, due, PublishAll(s, list, reason), due - DueOf(list), a, c)
    ensures PublishAll(s, list, reason).gateway.sockets == s.gateway.sockets && PublishAll(s, list, reason).gateway.open == s.gateway.open
  {
    if list == [] {
      assert due - DueOf(list) == due;
    } else {
      var init, last := list[..|list| - 1], list[|list| - 1];
      assert list == init + [last];
      assert DueOf(list) == DueOf(init) + {last} by {
        assert last in list;
        forall e | e in init ensures e in list {}
      }
      PublishAllTells(s, init, reason, due, a, c);
      PublishAllKeepsInv(s, due, init, reason);
      var mid, e := PublishAll(s, init, reason), EndedEvent(last.deviceId, last.occupantId, reason);
      PublishParts(mid, e);
      PublishTells(mid, due - DueOf(init), e, a, c);
      assert due - DueOf(init) - {last} == due - DueOf(list);
      TellsTransitive(s, due, mid, due - DueOf(init), PublishAll(s, list, reason), due - DueOf(list), a, c);
    }
  }

  /** Emptying rows makes their occupations due, so nothing stops being current before its notice is sent. */
  lemma VacateTells(s: ServerState, t: Table, ids: set<DeviceId>, list: seq<EndedOccupation>, reason: EndReason, a: AgentId, c: Connection)
    requires ServerInv(s, {}) && Enumerates(list, s.devices, ids)
    requires t.Keys == s.devices.Keys && RowsInv(t)
    requires forall d :: d in t ==> t[d].occupantId == (if d in ids then None else s.devices[d].occupantId) && t[d].agentId == s.devices[d].agentId
    requires a in s.gateway.sockets && s.gateway.sockets[a] == c && c in s.gateway.open
    ensures Tells(s, {}, PublishAll(s.(devices := t), list, reason), {}, a, c)
  {
    var vacated := s.(devices := t);
    VacateMakesDue(s, t, ids, list);
    forall d, g | Current(s, {}, a, d, g) ensures Current(vacated, DueOf(list), a, d, g) {
      if d in ids { assert EndedOccupation(d, g) in list; }
    }
    assert Tells(s, {}, vacated, DueOf(list), a, c);
    PublishAllTells(vacated, list, reason, DueOf(list), a, c);
    assert DueOf(list) - DueOf(list) == {};
    TellsTransitive(s, {}, vacated, DueOf(list), PublishAll(vacated, list, reason), {}, a, c);
  }

  lemma ReleaseTells(s: ServerState, d: DeviceId, g: Generation, a: AgentId, c: Connection)
    requires ServerInv(s, {}) && a in s.gateway.sockets && s.gateway.sockets[a] == c && c in s.gateway.open
    ensures Tells(s, {}, ReleaseDevice(s, d, g), {}, a, c)
  {
    if CheckOccupant(s.devices, d, g).Done? {
      var list := [EndedOccupation(d, g)];
      var vacated := s.(devices := VacateAll(s.devices, {d}));
      VacateTells(s, VacateAll(s.devices, {d}), {d}, list, Released, a, c);
      assert PublishAll(vacated, list, Released) == PublishEnded(PublishAll(vacated, list[..0], Released), EndedEvent(d, g, Released));
      assert list[..0] == [];
    } else {
      SteadyTells(s, {}, s, a, c);
    }
  }

  lemma RegisterTells(f: Farm, step: Step, own: Ownership, a: AgentId, c: Connection)
    requires ServerInv(f.server, {}) && step.ReceivesRegister? && Respects(f, step, own) && TableOwned(f.server.devices, own)
    requires c in f.server.gateway.wire
    ensures Tells(f.server, {}, ApplyToServer(f.server, step), {}, a, c)
  {
    var s, t := f.server, ApplyToServer(f.server, step);
    RegisterIsQuiet(s, step.c, step.items, step.capabilities, step.now);
    forall d, g | Current(s, {}, a, d, g) ensures Current(t, {}, a, d, g) {
      assert AgentOf(s.devices, d).Some?;
      if IsCurrent(s.gateway, step.c) {
        UpsertManyAt(s.devices, step.items, s.gateway.agentOf[step.c], step.now, d);
      }
    }
    SteadyTells(s, {}, t, a, c);
  }

  lemma EndStepTells(s: ServerState, step: Step, a: AgentId, c: Connection)
    requires ServerInv(s, {}) && (step.Releases? || step.SweepsIdle? || step.SweepsStale?)
    requires step.SweepsIdle? ==> Enumerates(step.ended, s.devices, IdleIds(s.devices, step.cutoff))
    requires step.SweepsStale? ==> Enumerates(step.ended, s.devices, StaleIds(s.devices, step.cutoff))
    requires a in s.gateway.sockets && s.gateway.sockets[a] == c && c in s.gateway.open
    ensures Tells(s, {}, ApplyToServer(s, step), {}, a, c)
  {
    hide Tells, PublishAll, PublishEnded, Enumerates;
    match step
    case Releases(d, g) => ReleaseTells(s, d, g, a, c);
    case SweepsIdle(cutoff, ended) =>
      VacateTells(s, VacateAll(s.devices, IdleIds(s.devices, cutoff)), IdleIds(s.devices, cutoff), ended, IdleExpired, a, c);
    case SweepsStale(cutoff, ended) =>
      VacateTells(s, OfflineAll(s.devices, StaleIds(s.devices, cutoff)), StaleIds(s.devices, cutoff), ended, AgentStale, a, c);
  }

  lemma OtherStepTells(f: Farm, step: Step, a: AgentId, c: Connection)
    requires GatewayInv(f.server.gateway) && Enabled(f, step) && IsServerStep(step) && !EndsOrRegistersOrSends(step)
    requires c in f.server.gateway.agentOf && f.server.gateway.agentOf[c] == a && c in f.server.gateway.open
    requires c in ApplyToServer(f.server, step).gateway.open
    ensures Tells(f.server, {}, ApplyToServer(f.server, step), {}, a, c)
  {
    ServerStepIsQuiet(f, step);
    forall d, g | Current(f.server, {}, a, d, g) ensures Current(ApplyToServer(f.server, step), {}, a, d, g) {
      StaysCurrent(f, step, a, c, d, g);
    }
    SteadyTells(f.server, {}, ApplyToServer(f.server, step), a, c);
  }

  /** Every server step tells the open connection of every agent what it has to know. */
  lemma ServerStepTells(f: Farm, step: Step, own: Ownership, a: AgentId, c: Connection)
    requires ServerInv(f.server, {}) && Enabled(f, step) && IsServerStep(step) && Respects(f, step, own) && TableOwned(f.server.devices, own)
    requires c in f.server.gateway.agentOf && f.server.gateway.agentOf[c] == a && c in f.server.gateway.open
    requires c in ApplyToServer(f.server, step).gateway.open
    ensures Tells(f.server, {}, ApplyToServer(f.server, step), {}, a, c)
  {
    if step.ReceivesRegister? {
      RegisterTells(f, step, own, a, c);
    } else if step.Executes? {
      ExecuteTells(f.server, step, a, c);
    } else if EndsOrRegistersOrSends(step) {
      EndStepTells(f.server, step, a, c);
    } else {
      OtherStepTells(f, step, a, c);
    }
  }

  predicate EndsOrRegistersOrSends(step: Step) {
    step.Releases? || step.SweepsIdle? || step.SweepsStale? || step.ReceivesRegister? || step.Executes?
  }

  /** No other server step takes a device from its occupant, or from the agent of an open connection. */
  lemma StaysCurrent(f: Farm, step: Step, a: AgentId, c: Connection, d: DeviceId, g: Generation)
    requires GatewayInv(f.server.gateway) && Enabled(f, step) && IsServerStep(step) && !EndsOrRegistersOrSends(step)
    requires c in f.server.gateway.agentOf && f.server.gateway.agentOf[c] == a && c in f.server.gateway.open
    requires c in ApplyToServer(f.server, step).gateway.open
    requires Current(f.server, {}, a, d, g)
    ensures Current(ApplyToServer(f.server, step), {}, a, d, g)
  {
  }

  lemma ExecuteTells(s: ServerState, step: Step, a: AgentId, c: Connection)
    requires ServerInv(s, {}) && step.Executes? && c in s.gateway.agentOf && s.gateway.agentOf[c] == a
    ensures Tells(s, {}, ApplyToServer(s, step), {}, a, c)
  {
    var t := ApplyToServer(s, step);
    ExecuteWire(s, step);
    assert forall d, g :: Current(s, {}, a, d, g) <==> Current(t, {}, a, d, g);
    if SendsCommand(s, step) && CommandChannel(s, step) == c {
      assert Current(t, {}, a, step.device, step.occupantId);
    }
  }

  lemma ReceiveKeepsLag(s: ServerState, t: ServerState, a: AgentId, agent: Agent, w: seq<ServerMessage>,
                        isRegistered: bool, isReady: bool, now: Time)
    requires w != [] && ChannelInv(s, w) && LagOn(s, {}, a, agent.executor.occupations, w)
    requires t.devices == s.devices
    ensures LagOn(t, {}, a, Receive(agent, w[0], isRegistered, isReady, now).executor.occupations, w[1..])
  {
    hide ChannelInv, Receive, Current;
    LagOnRest(s, t, a, w);
    ReceivedLag(s, t, a, agent, w, isRegistered, isReady, now);
  }

  /** Each occupation remembered after a message is current or has its notice behind the message. */
  lemma ReceivedLag(s: ServerState, t: ServerState, a: AgentId, agent: Agent, w: seq<ServerMessage>,
                    isRegistered: bool, isReady: bool, now: Time)
    requires w != [] && LagOn(s, {}, a, agent.executor.occupations, w) && t.devices == s.devices
    ensures var occupations := Receive(agent, w[0], isRegistered, isReady, now).executor.occupations;
            forall d :: d in occupations ==> Current(t, {}, a, d, occupations[d]) || OccupancyEnded(d, occupations[d]) in w[1..]
  {
    var occupations := Receive(agent, w[0], isRegistered, isReady, now).executor.occupations;
    assert w == [w[0]] + w[1..];
    forall d | d in occupations ensures Current(t, {}, a, d, occupations[d]) || OccupancyEnded(d, occupations[d]) in w[1..] {
      if w[0].Command? { assert w[0] in w; }
    }
  }

  /** Each command behind the first message is of a current occupation or has its notice there too. */
  lemma LagOnRest(s: ServerState, t: ServerState, a: AgentId, w: seq<ServerMessage>)
    requires w != [] && ChannelInv(s, w) && t.devices == s.devices
    requires forall m :: m in w && m.Command? ==>
               Current(s, {}, a, m.deviceId, m.occupantId) || OccupancyEnded(m.deviceId, m.occupantId) in w
    ensures forall m :: m in w[1..] && m.Command? ==>
              Current(t, {}, a, m.deviceId, m.occupantId) || OccupancyEnded(m.deviceId, m.occupantId) in w[1..]
  {
    forall m | m in w[1..] && m.Command?
      ensures Current(t, {}, a, m.deviceId, m.occupantId) || OccupancyEnded(m.deviceId, m.occupantId) in w[1..]
    {
      assert m in w;
      var i :| 0 <= i < |w[1..]| && w[1..][i] == m;
      assert OrderInv(w[0], w[i + 1]);
      assert w == [w[0]] + w[1..];
    }
  }

  ghost predicate LagsInv(f: Farm) {
    forall a :: a in f.agents ==> LagInv(f, a)
  }

  lemma ServerStepKeepsLags(f: Farm, step: Step, own: Ownership)
    requires FarmInv(f) && LagsInv(f) && Enabled(f, step) && IsServerStep(step)
    requires Respects(f, step, own) && TableOwned(f.server.devices, own)
    ensures LagsInv(Apply(f, step))
  {
    var after := Apply(f, step);
    forall a | a in after.agents ensures LagInv(after, a) {
      assert AgentInv(f, a) && LagInv(f, a);
      if f.agents[a].link.Some? && f.agents[a].link.value in after.server.gateway.open {
        var c := f.agents[a].link.value;
        OpenShrinks(f, step);
        ServerStepTells(f, step, own, a, c);
        TellsKeepsLag(f.server, {}, after.server, {}, a, c, f.agents[a].executor.occupations);
      }
    }
  }

  lemma OpenShrinks(f: Farm, step: Step)
    requires Enabled(f, step) && IsServerStep(step)
    ensures ApplyToServer(f.server, step).gateway.open <= f.server.gateway.open
  {
    hide PublishAll, PublishEnded, WithRelay, Register;
    var s := f.server;
    match step
    case Releases(d, g) => PublishParts(s.(devices := VacateAll(s.devices, {d})), EndedEvent(d, g, Released));
    case SweepsIdle(cutoff, ended) => PublishAllKeepsOpen(s.(devices := VacateAll(s.devices, IdleIds(s.devices, cutoff))), ended, IdleExpired);
    case SweepsStale(cutoff, ended) => PublishAllKeepsOpen(s.(devices := OfflineAll(s.devices, StaleIds(s.devices, cutoff))), ended, AgentStale);
    case _ => if ViewsOrRegisters(step) { ViewOrRegisterParts(s, step); }
  }

  lemma {:induction false} PublishAllKeepsOpen(s: ServerState, list: seq<EndedOccupation>, reason: EndReason)
    ensures PublishAll(s, list, reason).gateway.open == s.gateway.open && PublishAll(s, list, reason).devices == s.devices
  {
    if list != [] {
      var last := list[|list| - 1];
      PublishAllKeepsOpen(s, list[..|list| - 1], reason);
      PublishParts(PublishAll(s, list[..|list| - 1], reason), EndedEvent(last.deviceId, last.occupantId, reason));
    }
  }

  /** The other agents of a step taken by agent a. */
  lemma OthersKeepLag(f: Farm, g: Farm, a: AgentId)
    requires AgentsInv(f) && LagsInv(f) && a in f.agents && a in g.agents && LagInv(g, a)
    requires f.agents - {a} == g.agents - {a} && g.server.devices == f.server.devices
    requires forall c :: c in f.server.gateway.agentOf && f.server.gateway.agentOf[c] != a ==>
               WireOf(g.server.gateway, c) == WireOf(f.server.gateway, c)
               && (c in g.server.gateway.open ==> c in f.server.gateway.open)
    ensures LagsInv(g)
  {
    forall b | b in g.agents ensures LagInv(g, b) {
      if b != a {
        assert b in (g.agents - {a}) && (g.agents - {a})[b] == (f.agents - {a})[b];
        assert AgentInv(f, b) && LagInv(f, b);
        if LagOn(f.server, {}, b, f.agents[b].executor.occupations, Inbox(f, b)) {
          assert Inbox(g, b) == Inbox(f, b);
          assert LagOn(g.server, {}, b, f.agents[b].executor.occupations, Inbox(f, b));
        }
      }
    }
  }

  lemma DeliverKeepsLags(f: Farm, a: AgentId, isRegistered: bool, isReady: bool, now: Time)
    requires FarmInv(f) && LagsInv(f) && Inbox(f, a) != []
    ensures LagsInv(DeliveredTo(f, a, isRegistered, isReady, now))
  {
    var after := DeliveredTo(f, a, isRegistered, isReady, now);
    assert Inbox(after, a) == Inbox(f, a)[1..];
    assert ChannelInv(f.server, Inbox(f, a));
    assert LagInv(after, a) by {
      assert LagInv(f, a);
      if LagOn(f.server, {}, a, f.agents[a].executor.occupations, Inbox(f, a)) {
        ReceiveKeepsLag(f.server, after.server, a, f.agents[a], Inbox(f, a), isRegistered, isReady, now);
      }
    }
    OthersKeepLag(f, after, a);
  }

  lemma OpenKeepsOwnLag(f: Farm, a: AgentId, c: Connection)
    requires AgentsInv(f) && a in f.agents && f.agents[a].link.None?
    ensures LagInv(OpenedBy(f, a, c), a)
  {
    assert AgentInv(f, a);
    assert Inbox(OpenedBy(f, a, c), a) == [];
  }

  lemma OpenKeepsLags(f: Farm, a: AgentId, c: Connection)
    requires AgentsInv(f) && LagsInv(f) && a in f.agents && f.agents[a].link.None? && c !in f.server.gateway.agentOf
    ensures LagsInv(OpenedBy(f, a, c))
  {
    hide LagInv, AcceptedInv, InboxFollows, Exec.ExecutorInv;
    OpenKeepsOwnLag(f, a, c);
    OthersKeepLag(f, OpenedBy(f, a, c), a);
  }

  lemma OwnStepKeepsOwnLag(f: Farm, a: AgentId, step: Step)
    requires a in f.agents && LagInv(f, a) && IsOwnStep(step) && OwnEnabled(f.agents[a], step)
    ensures LagInv(WithAgent(f, a, OwnStep(f.agents[a], step)), a)
  {
    var after := WithAgent(f, a, OwnStep(f.agents[a], step));
    if after.agents[a].link.Some? { assert Inbox(after, a) == Inbox(f, a); }
  }

  lemma OwnStepKeepsLags(f: Farm, a: AgentId, step: Step)
    requires AgentsInv(f) && LagsInv(f) && a in f.agents && IsOwnStep(step) && OwnEnabled(f.agents[a], step)
    ensures LagsInv(WithAgent(f, a, OwnStep(f.agents[a], step)))
  {
    assert LagInv(f, a);
    OwnStepKeepsOwnLag(f, a, step);
    OthersKeepLag(f, WithAgent(f, a, OwnStep(f.agents[a], step)), a);
  }

  lemma StepKeepsLags(f: Farm, step: Step, own: Ownership)
    requires FarmInv(f) && LagsInv(f) && Enabled(f, step) && Respects(f, step, own) && TableOwned(f.server.devices, own)
    ensures LagsInv(Apply(f, step))
  {
    if IsServerStep(step) {
      ServerStepKeepsLags(f, step, own);
    } else if step.Delivers? {
      DeliverKeepsLags(f, step.agentId, step.isRegistered, step.isReady, step.now);
    } else if step.AgentOpens? {
      OpenKeepsLags(f, step.agentId, step.c);
    } else {
      OwnStepKeepsLags(f, step.agentId, step);
    }
  }

  lemma StepKeepsTableOwned(f: Farm, step: Step, own: Ownership)
    requires Enabled(f, step) && Respects(f, step, own) && TableOwned(f.server.devices, own)
    ensures TableOwned(Apply(f, step).server.devices, own)
  {
    forall d | AgentOf(Apply(f, step).server.devices, d).Some?
      ensures Owns(own, AgentOf(Apply(f, step).server.devices, d).value, d)
    {
      if IsServerStep(step) { ServerStepOwner(f, step, d); }
      assert AgentOf(f.server.devices, d).Some? ==> Owns(own, AgentOf(f.server.devices, d).value, d);
    }
  }

  /** A server step leaves a device's owner alone, drops it, or makes the sender of a register message the owner. */
  lemma ServerStepOwner(f: Farm, step: Step, d: DeviceId)
    requires Enabled(f, step) && IsServerStep(step)
    ensures var after := AgentOf(ApplyToServer(f.server, step).devices, d);
            || after == AgentOf(f.server.devices, d) || after.None?
            || (step.ReceivesRegister? && IsCurrent(f.server.gateway, step.c)
                && d in RegisteredIds(step.items) && after == Some(f.server.gateway.agentOf[step.c]))
  {
    hide PublishAll;
    match step
    case SweepsIdle(cutoff, ended) =>
      PublishAllKeepsOpen(f.server.(devices := VacateAll(f.server.devices, IdleIds(f.server.devices, cutoff))), ended, IdleExpired);
    case SweepsStale(cutoff, ended) =>
      PublishAllKeepsOpen(f.server.(devices := OfflineAll(f.server.devices, StaleIds(f.server.devices, cutoff))), ended, AgentStale);
    case ReceivesRegister(c, items, capabilities, now) =>
      if IsCurrent(f.server.gateway, c) {
        UpsertManyAt(f.server.devices, items, f.server.gateway.agentOf[c], now, d);
      }
    case _ =>
  }

  lemma {:induction false} OwnedRunInv(states: seq<Farm>, steps: seq<Step>, own: Ownership, n: nat)
    requires IsOwnedRun(states, steps, own) && n < |states|
    ensures FarmInv(states[n]) && LagsInv(states[n]) && TableOwned(states[n].server.devices, own)
  {
    RunInv(states, steps, n);
    if n > 0 {
      OwnedRunInv(states, steps, own, n - 1);
      StepKeepsLags(states[n - 1], steps[n - 1], own);
      StepKeepsTableOwned(states[n - 1], steps[n - 1], own);
    }
  }

  /** In every state: if agent a remembers occupation g of d, then g is still the occupation of d, or the end notice is
      on its way on a's connection, or the server's end of that connection is closed and a has yet to notice. */
  lemma AgentLagsByWhatIsInFlight(states: seq<Farm>, steps: seq<Step>, own: Ownership, n: nat, a: AgentId, d: DeviceId, g: Generation)
    requires IsOwnedRun(states, steps, own) && n < |states| && a in states[n].agents
    requires Exec.OccupationOf(states[n].agents[a].executor, d) == Some(g)
    ensures var f := states[n];
      || IsActive(f.server, d, g)
      || OccupancyEnded(d, g) in Inbox(f, a)
      || (f.agents[a].link.Some? && f.agents[a].link.value !in f.server.gateway.open)
  {
    OwnedRunInv(states, steps, own, n);
    assert AgentInv(states[n], a) && LagInv(states[n], a);
  }
}
