/** What holds in every state of every run: the server's invariant, order on the wire, and the executors' invariants. */
module FarmInvariant {
  import opened Common
  import opened DevicesRepository
  import opened StreamsRelay
  import opened AgentsGateway
  import opened Server
  import opened ServerInvariant
  import opened StreamDemandGate
  import opened Farm
  import Exec = CommandExecutor

  ghost predicate IsCommandFor(m: ServerMessage, d: DeviceId, g: Generation) {
    m.Command? && m.deviceId == d && m.occupantId == g
  }

  ghost predicate MessageInv(s: ServerState, m: ServerMessage) {
    match m
    case Command(_, d, g, _) => g < |s.issued| && s.issued[g] == d
    case OccupancyEnded(d, g) => IsEnded(s, g)
    case StreamDemand(_) => true
  }

  /** Two messages of one channel, `first` sent before `second`. */
  ghost predicate OrderInv(first: ServerMessage, second: ServerMessage) {
    second.Command? ==>
      && first != OccupancyEnded(second.deviceId, second.occupantId)
      && (first.Command? && first.deviceId == second.deviceId ==> first.occupantId <= second.occupantId)
  }

  ghost predicate ChannelInv(s: ServerState, w: seq<ServerMessage>) {
    && (forall i :: 0 <= i < |w| ==> MessageInv(s, w[i]))
    && (forall i, j :: 0 <= i < j < |w| ==> OrderInv(w[i], w[j]))
  }

  ghost predicate WiresInv(s: ServerState) {
    forall c :: c in s.gateway.wire ==> ChannelInv(s, s.gateway.wire[c])
  }

  /** `t` comes from `s` by appending messages other than commands to channels; histories only grow. */
  ghost predicate Quiet(s: ServerState, t: ServerState) {
    && s.issued <= t.issued && s.ended <= t.ended && s.gateway.agentOf == t.gateway.agentOf
    && s.gateway.wire.Keys == t.gateway.wire.Keys
    && forall c :: c in s.gateway.wire ==> AppendsQuietly(t, s.gateway.wire[c], t.gateway.wire[c])
  }

  ghost predicate AppendsQuietly(t: ServerState, before: seq<ServerMessage>, after: seq<ServerMessage>) {
    && before <= after
    && forall i :: |before| <= i < |after| ==> !after[i].Command? && MessageInv(t, after[i])
  }

  lemma IsEndedGrows(s: ServerState, t: ServerState, g: Generation)
    requires s.ended <= t.ended && IsEnded(s, g)
    ensures IsEnded(t, g)
  {
    var i :| 0 <= i < |s.ended| && s.ended[i].occupantId == g;
    assert t.ended[i] == s.ended[i];
  }

  lemma MessageInvGrows(s: ServerState, t: ServerState, m: ServerMessage)
    requires s.issued <= t.issued && s.ended <= t.ended && MessageInv(s, m)
    ensures MessageInv(t, m)
  {
    if m.OccupancyEnded? { IsEndedGrows(s, t, m.occupantId); }
  }

  lemma QuietTransitive(s: ServerState, t: ServerState, u: ServerState)
    requires Quiet(s, t) && Quiet(t, u)
    ensures Quiet(s, u)
  {
    forall c | c in s.gateway.wire ensures AppendsQuietly(u, s.gateway.wire[c], u.gateway.wire[c]) {
      var before, mid, after := s.gateway.wire[c], t.gateway.wire[c], u.gateway.wire[c];
      assert AppendsQuietly(t, before, mid) && AppendsQuietly(u, mid, after);
      forall i | |before| <= i < |after| ensures !after[i].Command? && MessageInv(u, after[i]) {
        if i < |mid| {
          assert after[i] == mid[i];
          MessageInvGrows(t, u, mid[i]);
        }
      }
    }
  }

  lemma QuietKeepsWires(s: ServerState, t: ServerState)
    requires WiresInv(s) && Quiet(s, t)
    ensures WiresInv(t)
  {
    forall c | c in t.gateway.wire ensures ChannelInv(t, t.gateway.wire[c]) {
      var before, after := s.gateway.wire[c], t.gateway.wire[c];
      assert AppendsQuietly(t, before, after) && ChannelInv(s, before);
      forall i | 0 <= i < |after| ensures MessageInv(t, after[i]) {
        if i < |before| { MessageInvGrows(s, t, before[i]); }
      }
    }
  }

  lemma SendIsQuiet(s: ServerState, agentId: Option<AgentId>, m: ServerMessage)
    requires s.gateway.wire.Keys == s.gateway.agentOf.Keys && SocketsInv(s.gateway)
    requires !m.Command? && MessageInv(s, m)
    ensures Quiet(s, s.(gateway := SendIfKnown(s.gateway, agentId, m)))
  {
  }

  lemma SendDemandIsQuiet(s: ServerState, agentId: Option<AgentId>)
    requires SocketsInv(s.gateway)
    ensures Quiet(s, SendDemand(s, agentId))
  {
    if agentId.Some? {
      SendIsQuiet(s, agentId, StreamDemand(Demand(s, agentId.value)));
    }
  }

  lemma WithRelayIsQuiet(s: ServerState, d: DeviceId, relay: RelayState)
    requires SocketsInv(s.gateway)
    ensures Quiet(s, WithRelay(s, d, relay))
  {
    SendDemandIsQuiet(s.(relay := relay), AgentOf(s.devices, d));
  }

  lemma PublishIsQuiet(s: ServerState, e: EndedEvent)
    requires GatewayInv(s.gateway)
    ensures Quiet(s, PublishEnded(s, e))
  {
    var closed := WithRelay(s, e.deviceId, CloseViewers(s.relay, e.deviceId, e.occupantId));
    WithRelayIsQuiet(s, e.deviceId, CloseViewers(s.relay, e.deviceId, e.occupantId));
    var requests := PendingOfOccupation(closed.gateway, e.deviceId, e.occupantId);
    var logged := closed.(gateway := Resolve(closed.gateway, requests, AgentsGateway.OccupationEnded), ended := closed.ended + [e]);
    assert IsEnded(logged, e.occupantId) by { assert logged.ended[|closed.ended|] == e; }
    assert Quiet(closed, logged);
    QuietTransitive(s, closed, logged);
    assert SocketsInv(logged.gateway) by { PublishKeepsGatewayInv(s, e); }
    SendIsQuiet(logged, AgentOf(closed.devices, e.deviceId), AgentsGateway.OccupancyEnded(e.deviceId, e.occupantId));
    QuietTransitive(s, logged, PublishEnded(s, e));
  }

  lemma {:induction false} PublishAllIsQuiet(s: ServerState, list: seq<EndedOccupation>, reason: EndReason)
    requires GatewayInv(s.gateway)
    ensures Quiet(s, PublishAll(s, list, reason)) && GatewayInv(PublishAll(s, list, reason).gateway)
  {
    if list != [] {
      var init, last := list[..|list| - 1], list[|list| - 1];
      var e := EndedEvent(last.deviceId, last.occupantId, reason);
      var mid := PublishAll(s, init, reason);
      PublishAllIsQuiet(s, init, reason);
      PublishIsQuiet(mid, e);
      PublishKeepsGatewayInv(mid, e);
      QuietTransitive(s, mid, PublishEnded(mid, e));
    }
  }

  /** Every server step except a sent command and a new connection appends no command to any channel. */
  lemma ServerStepIsQuiet(f: Farm, step: Step)
    requires GatewayInv(f.server.gateway) && Enabled(f, step) && IsServerStep(step) && !step.Executes?
    ensures Quiet(f.server, ApplyToServer(f.server, step))
  {
    hide PublishEnded, PublishAll, WithRelay, Register;
    var s := f.server;
    match step
    case Releases(d, g) =>
      if CheckOccupant(s.devices, d, g).Done? {
        PublishIsQuiet(s.(devices := VacateAll(s.devices, {d})), EndedEvent(d, g, Released));
      }
    case SweepsIdle(cutoff, ended) =>
      PublishAllIsQuiet(s.(devices := VacateAll(s.devices, IdleIds(s.devices, cutoff))), ended, IdleExpired);
    case SweepsStale(cutoff, ended) =>
      PublishAllIsQuiet(s.(devices := OfflineAll(s.devices, StaleIds(s.devices, cutoff))), ended, AgentStale);
    case ViewerJoins(d, g, v) => WithRelayIsQuiet(s, d, AddViewer(s.relay, d, g, v));
    case ViewerLeaves(d, v) => WithRelayIsQuiet(s, d, RemoveViewer(s.relay, d, v));
    case ReceivesRegister(c, items, capabilities, now) => RegisterIsQuiet(s, c, items, capabilities, now);
    case _ => SilentStepIsQuiet(f, step);
  }

  predicate MaySend(step: Step) {
    step.Releases? || step.SweepsIdle? || step.SweepsStale? || step.ViewerJoins? || step.ViewerLeaves?
    || step.ReceivesRegister? || step.Executes?
  }

  lemma SilentStepIsQuiet(f: Farm, step: Step)
    requires GatewayInv(f.server.gateway) && Enabled(f, step) && IsServerStep(step) && !MaySend(step)
    ensures Quiet(f.server, ApplyToServer(f.server, step))
  {
    hide PublishEnded, PublishAll, WithRelay, Register;
  }

  lemma RegisterIsQuiet(s: ServerState, c: Connection, items: seq<RegisterInput>, capabilities: Option<set<string>>, now: Time)
    requires GatewayInv(s.gateway)
    ensures Quiet(s, Register(s, c, items, capabilities, now))
  {
    if IsCurrent(s.gateway, c) {
      var agentId := s.gateway.agentOf[c];
      var kinds := if capabilities.Some? then capabilities.value else LEGACY_ACTION_KINDS;
      var listed := s.(devices := UpsertMany(s.devices, items, agentId, now),
                       gateway := s.gateway.(capabilities := s.gateway.capabilities[agentId := kinds]),
                       registered := s.registered + {c});
      SendDemandIsQuiet(listed, Some(agentId));
      QuietTransitive(s, listed, Register(s, c, items, capabilities, now));
    }
  }

  lemma ServerStepKeepsServerInv(f: Farm, step: Step)
    requires ServerInv(f.server, {}) && Enabled(f, step) && IsServerStep(step)
    ensures ServerInv(ApplyToServer(f.server, step), {})
  {
    hide ServerInv;
    var s := f.server;
    match step
    case Occupies(d, filter, now) => OccupyKeepsInv(s, d, now);
    case Releases(d, g) => ReleaseKeepsInv(s, d, g);
    case KeepsAlive(d, g, now) => RenewKeepsInv(s, d, g, now);
    case Executes(d, g, action, r, now) => ExecuteKeepsInv(s, d, g, action, r, now);
    case SweepsIdle(cutoff, ended) => SweepsKeepInv(s, cutoff, ended);
    case SweepsStale(cutoff, ended) => SweepsKeepInv(s, cutoff, ended);
    case CommandTimer(r) => MessagesKeepInv(s, 0, {}, 0, r, TimedOut);
    case ViewerJoins(d, g, v) => ConnectViewerKeepsInv(s, d, g, v);
    case ViewerLeaves(d, v) => DisconnectViewerKeepsInv(s, d, v);
    case SocketGoesDown(c) => SocketDownKeepsInv(s, c);
    case ServerSeesClose(c) => DisconnectAgentKeepsInv(s, c);
    case ReceivesRegister(c, items, capabilities, now) => RegisterKeepsInv(s, c, items, capabilities, now);
    case ReceivesHeartbeat(c, ids, now) => MessagesKeepInv(s, c, ids, now, 0, TimedOut);
    case ReceivesResult(c, r, outcome) => MessagesKeepInv(s, c, {}, 0, r, outcome);
    case ReceivesFrame(_, _, _) =>
  }

  /** Whether the step sends a command, and on which connection. */
  predicate SendsCommand(s: ServerState, step: Step) {
    step.Executes? && ExecuteResultOf(s, step.device, step.occupantId, step.action).Waiting?
  }

  function CommandChannel(s: ServerState, step: Step): Connection
    requires SendsCommand(s, step)
  {
    s.gateway.sockets[s.devices[step.device].agentId.value]
  }

  lemma ExecuteWire(s: ServerState, step: Step)
    requires GatewayInv(s.gateway) && step.Executes?
    ensures var t := ApplyToServer(s, step);
      && t.issued == s.issued && t.ended == s.ended && t.gateway.agentOf == s.gateway.agentOf && t.gateway.open == s.gateway.open
      && t.gateway.sockets == s.gateway.sockets
      && (if SendsCommand(s, step) then
            CommandChannel(s, step) in s.gateway.wire &&
            t.gateway.wire == s.gateway.wire[CommandChannel(s, step) := s.gateway.wire[CommandChannel(s, step)]
              + [Command(step.requestId, step.device, step.occupantId, step.action)]]
          else t.gateway.wire == s.gateway.wire)
  {
  }

  /** Steps that change viewers or registrations. */
  predicate ViewsOrRegisters(step: Step) {
    step.ViewerJoins? || step.ViewerLeaves? || step.ReceivesRegister?
  }

  lemma ViewOrRegisterParts(s: ServerState, step: Step)
    requires ViewsOrRegisters(step)
    ensures SameCommands(s.gateway, ApplyToServer(s, step).gateway)
  {
    hide WithRelay, Register, SameCommands;
    assert SameCommands(s.gateway, s.gateway) by { SameAsItself(s.gateway); }
    match step
    case ViewerJoins(d, g, v) => WithRelayParts(s, d, AddViewer(s.relay, d, g, v));
    case ViewerLeaves(d, v) => WithRelayParts(s, d, RemoveViewer(s.relay, d, v));
    case ReceivesRegister(c, items, capabilities, now) => RegisterParts(s, c, items, capabilities, now);
  }

  lemma SameAsItself(g: GatewayState)
    ensures SameCommands(g, g)
  {
  }

  /** The occupant's generation is the newest one issued for its device, and it has not ended. */
  lemma ActiveIsNewest(s: ServerState, d: DeviceId, g: Generation, h: Generation)
    requires OccupationInv(s, {}) && IsActive(s, d, g) && h < |s.issued| && s.issued[h] == d
    ensures h <= g < |s.issued| && s.issued[g] == d && !IsEnded(s, g)
  {
    assert OccupantInv(s, d);
  }

  lemma ExecuteKeepsWires(s: ServerState, step: Step)
    requires ServerInv(s, {}) && WiresInv(s) && step.Executes?
    ensures WiresInv(ApplyToServer(s, step))
  {
    var t := ApplyToServer(s, step);
    ExecuteWire(s, step);
    assert forall g :: IsEnded(t, g) <==> IsEnded(s, g);
    forall c | c in t.gateway.wire ensures ChannelInv(t, t.gateway.wire[c]) {
      var before, after := s.gateway.wire[c], t.gateway.wire[c];
      assert ChannelInv(s, before);
      if SendsCommand(s, step) && c == CommandChannel(s, step) {
        var m := Command(step.requestId, step.device, step.occupantId, step.action);
        assert OccupantInv(s, step.device);
        forall i | 0 <= i < |before| ensures OrderInv(before[i], m) {
          assert MessageInv(s, before[i]);
        }
        assert MessageInv(t, m);
      }
    }
  }

  // Agents

  ghost predicate AcceptedInv(s: ServerState, e: Exec.ExecutorState) {
    && (forall k :: 0 <= k < |e.accepted| ==> e.accepted[k].occupantId < |s.issued| && s.issued[e.accepted[k].occupantId] == e.accepted[k].deviceId)
    && (forall k, l :: 0 <= k < l < |e.accepted| && e.accepted[k].deviceId == e.accepted[l].deviceId ==>
          e.accepted[k].occupantId <= e.accepted[l].occupantId)
  }

  /** A command still to be received is of no older generation than those accepted for its device. */
  ghost predicate InboxFollows(w: seq<ServerMessage>, e: Exec.ExecutorState) {
    forall k, i :: 0 <= k < |e.accepted| && 0 <= i < |w| && w[i].Command? && w[i].deviceId == e.accepted[k].deviceId ==>
      e.accepted[k].occupantId <= w[i].occupantId
  }

  ghost predicate AgentInv(f: Farm, a: AgentId)
    requires a in f.agents
  {
    var agent := f.agents[a];
    && Exec.ExecutorInv(agent.executor)
    && AcceptedInv(f.server, agent.executor)
    && InboxFollows(Inbox(f, a), agent.executor)
    && (agent.link.None? ==> agent.executor.occupations == map[] && agent.gate == OPEN_GATE)
    && (agent.link.Some? ==> agent.link.value in f.server.gateway.agentOf && f.server.gateway.agentOf[agent.link.value] == a)
  }

  ghost predicate FarmInv(f: Farm) {
    && ServerInv(f.server, {})
    && WiresInv(f.server)
    && f.server.registered <= f.server.gateway.agentOf.Keys
    && AgentsInv(f)
  }

  ghost predicate AgentsInv(f: Farm) {
    forall a :: a in f.agents ==> AgentInv(f, a)
  }

  lemma InitInv(f: Farm)
    requires Init(f)
    ensures FarmInv(f)
  {
    EmptyServerInv();
  }

  lemma QuietKeepsAgent(f: Farm, t: ServerState, a: AgentId)
    requires a in f.agents && AgentInv(f, a) && Quiet(f.server, t) && f.server.gateway.wire.Keys == f.server.gateway.agentOf.Keys
    ensures AgentInv(f.(server := t), a)
  {
    var agent := f.agents[a];
    if agent.link.Some? {
      var before, after := f.server.gateway.wire[agent.link.value], t.gateway.wire[agent.link.value];
      assert AppendsQuietly(t, before, after);
    }
  }

  lemma ExecuteKeepsAgent(f: Farm, step: Step, a: AgentId)
    requires OccupationInv(f.server, {}) && GatewayInv(f.server.gateway) && step.Executes? && a in f.agents && AgentInv(f, a)
    ensures AgentInv(f.(server := ApplyToServer(f.server, step)), a)
  {
    var s, t := f.server, ApplyToServer(f.server, step);
    ExecuteWire(s, step);
    var e := f.agents[a].executor;
    var after := Inbox(f.(server := t), a);
    forall k, i | 0 <= k < |e.accepted| && 0 <= i < |after| && after[i].Command? && after[i].deviceId == e.accepted[k].deviceId
      ensures e.accepted[k].occupantId <= after[i].occupantId
    {
      if i >= |Inbox(f, a)| {
        ActiveIsNewest(s, step.device, step.occupantId, e.accepted[k].occupantId);
      }
    }
  }

  lemma RegisteredGrows(f: Farm, step: Step)
    requires FarmInv(f) && Enabled(f, step) && IsServerStep(step)
    ensures ApplyToServer(f.server, step).registered <= f.server.gateway.agentOf.Keys
  {
    hide ServerInv;
    match step
    case SweepsIdle(cutoff, ended) => PublishAllKeepsRegistered(f.server.(devices := VacateAll(f.server.devices, IdleIds(f.server.devices, cutoff))), ended, IdleExpired);
    case SweepsStale(cutoff, ended) => PublishAllKeepsRegistered(f.server.(devices := OfflineAll(f.server.devices, StaleIds(f.server.devices, cutoff))), ended, AgentStale);
    case _ =>
  }

  lemma {:induction false} PublishAllKeepsRegistered(s: ServerState, list: seq<EndedOccupation>, reason: EndReason)
    ensures PublishAll(s, list, reason).registered == s.registered
  {
    if list != [] {
      PublishAllKeepsRegistered(s, list[..|list| - 1], reason);
    }
  }

  lemma ServerStepKeepsInv(f: Farm, step: Step)
    requires FarmInv(f) && Enabled(f, step) && IsServerStep(step)
    ensures FarmInv(Apply(f, step))
  {
    var t := ApplyToServer(f.server, step);
    ServerStepKeepsServerInv(f, step);
    RegisteredGrows(f, step);
    if step.Executes? {
      ExecuteKeepsWires(f.server, step);
      ExecuteWire(f.server, step);
      forall a | a in f.agents ensures AgentInv(Apply(f, step), a) {
        assert AgentInv(f, a);
        ExecuteKeepsAgent(f, step, a);
      }
    } else {
      ServerStepIsQuiet(f, step);
      QuietKeepsWires(f.server, t);
      forall a | a in f.agents ensures AgentInv(Apply(f, step), a) {
        QuietKeepsAgent(f, t, a);
      }
    }
  }

  /** An agent whose own state and inbox are untouched keeps its invariant. */
  lemma AgentFrame(f: Farm, g: Farm, a: AgentId)
    requires a in f.agents && a in g.agents && f.agents[a] == g.agents[a] && AgentInv(f, a)
    requires f.server.issued == g.server.issued && Inbox(f, a) == Inbox(g, a)
    requires forall c :: c in f.server.gateway.agentOf ==>
               c in g.server.gateway.agentOf && g.server.gateway.agentOf[c] == f.server.gateway.agentOf[c]
    ensures AgentInv(g, a)
  {
  }

  /** A step of agent a: the others keep their invariants if their inboxes stay the same. */
  lemma OthersKeepInv(f: Farm, g: Farm, a: AgentId)
    requires AgentsInv(f) && a in f.agents && f.agents - {a} == g.agents - {a} && a in g.agents && AgentInv(g, a)
    requires f.server.issued == g.server.issued
    requires forall c :: c in f.server.gateway.agentOf ==>
               c in g.server.gateway.agentOf && g.server.gateway.agentOf[c] == f.server.gateway.agentOf[c]
    requires forall c :: c in f.server.gateway.agentOf && f.server.gateway.agentOf[c] != a ==>
               WireOf(g.server.gateway, c) == WireOf(f.server.gateway, c)
    ensures AgentsInv(g)
  {
    forall b | b in g.agents ensures AgentInv(g, b) {
      if b != a {
        assert b in (g.agents - {a}) && (g.agents - {a})[b] == (f.agents - {a})[b];
        assert AgentInv(f, b);
        AgentFrame(f, g, b);
      }
    }
  }

  lemma ConnectKeepsWires(s: ServerState, a: AgentId, c: Connection)
    requires WiresInv(s) && c !in s.gateway.wire
    ensures WiresInv(ConnectAgent(s, a, c))
  {
    var t := ConnectAgent(s, a, c);
    assert forall g :: IsEnded(t, g) <==> IsEnded(s, g);
    forall x | x in t.gateway.wire ensures ChannelInv(t, t.gateway.wire[x]) {
      if x != c {
        var w := s.gateway.wire[x];
        assert t.gateway.wire[x] == w && ChannelInv(s, w);
        forall i | 0 <= i < |w| ensures MessageInv(t, w[i]) { assert MessageInv(s, w[i]); }
      }
    }
  }

  lemma OpenKeepsAgents(f: Farm, a: AgentId, c: Connection)
    requires AgentsInv(f) && a in f.agents && f.agents[a].link.None? && c !in f.server.gateway.agentOf
    ensures AgentsInv(OpenedBy(f, a, c))
  {
    hide Exec.ExecutorInv;
    var after := OpenedBy(f, a, c);
    OpenKeepsOwn(f, a, c);
    OthersKeepInv(f, after, a);
  }

  lemma OpenKeepsOwn(f: Farm, a: AgentId, c: Connection)
    requires a in f.agents && AgentInv(f, a) && f.agents[a].link.None?
    ensures AgentInv(OpenedBy(f, a, c), a)
  {
    assert Inbox(OpenedBy(f, a, c), a) == [];
  }

  lemma OpenKeepsInv(f: Farm, a: AgentId, c: Connection)
    requires FarmInv(f) && a in f.agents && f.agents[a].link.None? && c !in f.server.gateway.agentOf
    ensures FarmInv(OpenedBy(f, a, c))
  {
    ConnectAgentKeepsInv(f.server, a, c);
    ConnectKeepsWires(f.server, a, c);
    OpenKeepsAgents(f, a, c);
  }

  lemma PopKeepsServer(s: ServerState, c: Connection)
    requires ServerInv(s, {}) && WiresInv(s) && WireOf(s.gateway, c) != []
    ensures ServerInv(PopInbox(s, c), {}) && WiresInv(PopInbox(s, c))
  {
    var t := PopInbox(s, c);
    WithGatewayKeepsInv(s, {}, t.gateway);
    assert forall g :: IsEnded(t, g) <==> IsEnded(s, g);
    forall x | x in t.gateway.wire ensures ChannelInv(t, t.gateway.wire[x]) {
      assert ChannelInv(s, s.gateway.wire[x]);
    }
  }

  /** Receiving the oldest message keeps the executor in order with the rest of the inbox. */
  lemma ReceiveKeepsExecutor(s: ServerState, agent: Agent, w: seq<ServerMessage>, isRegistered: bool, isReady: bool, now: Time)
    requires w != [] && ChannelInv(s, w)
    requires Exec.ExecutorInv(agent.executor) && AcceptedInv(s, agent.executor) && InboxFollows(w, agent.executor)
    ensures var e := Receive(agent, w[0], isRegistered, isReady, now).executor;
            Exec.ExecutorInv(e) && AcceptedInv(s, e) && InboxFollows(w[1..], e)
  {
    assert MessageInv(s, w[0]);
    var e := Receive(agent, w[0], isRegistered, isReady, now).executor;
    match w[0] {
      case Command(r, d, g, _) =>
        if Exec.VerdictOf(agent.executor, d, isRegistered, isReady).Queued? {
          Exec.AcceptKeepsInv(agent.executor, d, r, g, now);
        }
      case OccupancyEnded(d, g) => Exec.RevokeKeepsInv(agent.executor, agent.executor.occupations - {d});
      case StreamDemand(_) =>
    }
    var rest := w[1..];
    forall k, i | 0 <= k < |e.accepted| && 0 <= i < |rest| && rest[i].Command? && rest[i].deviceId == e.accepted[k].deviceId
      ensures e.accepted[k].occupantId <= rest[i].occupantId
    {
      assert rest[i] == w[i + 1] && OrderInv(w[0], w[i + 1]);
    }
  }

  lemma DeliverKeepsAgents(f: Farm, a: AgentId, isRegistered: bool, isReady: bool, now: Time)
    requires AgentsInv(f) && Inbox(f, a) != [] && ChannelInv(f.server, Inbox(f, a))
    ensures AgentsInv(DeliveredTo(f, a, isRegistered, isReady, now))
  {
    hide Exec.ExecutorInv, InboxFollows, MessageInv, OrderInv;
    var after := DeliveredTo(f, a, isRegistered, isReady, now);
    assert AgentInv(f, a);
    ReceiveKeepsExecutor(f.server, f.agents[a], Inbox(f, a), isRegistered, isReady, now);
    assert Inbox(after, a) == Inbox(f, a)[1..];
    assert AgentInv(after, a);
    OthersKeepInv(f, after, a);
  }

  lemma DeliverKeepsInv(f: Farm, a: AgentId, isRegistered: bool, isReady: bool, now: Time)
    requires FarmInv(f) && Inbox(f, a) != []
    ensures FarmInv(DeliveredTo(f, a, isRegistered, isReady, now))
  {
    var c := f.agents[a].link.value;
    PopKeepsServer(f.server, c);
    assert ChannelInv(f.server, f.server.gateway.wire[c]);
    DeliverKeepsAgents(f, a, isRegistered, isReady, now);
  }

  /** An agent's own callback keeps its invariant, and accepts nothing. */
  lemma OwnStepKeepsAgent(f: Farm, a: AgentId, step: Step)
    requires a in f.agents && AgentInv(f, a) && IsOwnStep(step) && OwnEnabled(f.agents[a], step)
    ensures AgentInv(WithAgent(f, a, OwnStep(f.agents[a], step)), a)
  {
    hide Exec.ExecutorInv;
    var e, after := f.agents[a].executor, WithAgent(f, a, OwnStep(f.agents[a], step));
    match step {
      case QueueTurn(_, d, now) => Exec.TakeTurnKeepsInv(e, d, now);
      case ControllerAnswers(_, d, ok, body) => Exec.ConcludeKeepsInv(e, d, Exec.FromController(ok, body));
      case QueueCleanUp(_, d) => Exec.CleanUpKeepsInv(e, d);
      case AgentSeesClose(_) => Exec.RevokeKeepsInv(e, map[]);
      case AgentRestarts(_) => IdleInv();
    }
    assert after.agents[a].executor.accepted == e.accepted || after.agents[a].executor.accepted == [];
    assert Inbox(after, a) == Inbox(f, a) || Inbox(after, a) == [];
  }

  lemma IdleInv()
    ensures Exec.ExecutorInv(Exec.IDLE)
  {
  }

  lemma OwnStepKeepsAgents(f: Farm, a: AgentId, step: Step)
    requires AgentsInv(f) && a in f.agents && IsOwnStep(step) && OwnEnabled(f.agents[a], step)
    ensures AgentsInv(WithAgent(f, a, OwnStep(f.agents[a], step)))
  {
    hide Exec.ExecutorInv;
    assert AgentInv(f, a);
    OwnStepKeepsAgent(f, a, step);
    OthersKeepInv(f, WithAgent(f, a, OwnStep(f.agents[a], step)), a);
  }

  lemma StepKeepsInv(f: Farm, step: Step)
    requires FarmInv(f) && Enabled(f, step)
    ensures FarmInv(Apply(f, step))
  {
    if IsServerStep(step) {
      ServerStepKeepsInv(f, step);
    } else if step.AgentOpens? {
      OpenKeepsInv(f, step.agentId, step.c);
    } else if step.Delivers? {
      DeliverKeepsInv(f, step.agentId, step.isRegistered, step.isReady, step.now);
    } else {
      OwnStepKeepsAgents(f, step.agentId, step);
    }
  }

  /** The invariant holds in every state of every run. */
  lemma {:induction false} RunInv(states: seq<Farm>, steps: seq<Step>, n: nat)
    requires IsRun(states, steps) && n < |states|
    ensures FarmInv(states[n])
  {
    if n == 0 {
      InitInv(states[0]);
    } else {
      RunInv(states, steps, n - 1);
      StepKeepsInv(states[n - 1], steps[n - 1]);
    }
  }
}
