/** The way of a request: sent once, delivered at most once, answered for a reason that can be named. */
module Requests {
  import opened Common
  import opened DevicesRepository
  import opened StreamsRelay
  import opened AgentsGateway
  import opened Server
  import opened ServerInvariant
  import opened ServerGuarantees
  import opened Farm
  import opened FarmInvariant
  import opened GhostInput
  import Exec = CommandExecutor

  /** The server sends command r of occupation g of d to agent a. */
  ghost predicate Sends(f: Farm, step: Step, a: AgentId, d: DeviceId, g: Generation, r: RequestId) {
    && step.Executes? && SendsCommand(f.server, step) && step.requestId == r && step.device == d && step.occupantId == g
    && f.server.devices[d].agentId == Some(a)
  }

  ghost predicate SentAt(states: seq<Farm>, steps: seq<Step>, s: nat, a: AgentId, d: DeviceId, g: Generation, r: RequestId) {
    s < |steps| && s < |states| && Sends(states[s], steps[s], a, d, g, r)
  }

  /** Command r stands at position i of channel c. */
  ghost predicate OnWire(s: ServerState, c: Connection, i: nat, r: RequestId) {
    c in s.gateway.wire && i < |s.gateway.wire[c]| && s.gateway.wire[c][i].Command? && s.gateway.wire[c][i].requestId == r
  }

  /** The channel whose oldest message the step delivers. */
  function ReadFrom(f: Farm, step: Step): Option<Connection> {
    if step.Delivers? && step.agentId in f.agents then f.agents[step.agentId].link else None
  }

  /** A command on a channel after a step was there before, one place further back if its channel delivered, or is the one
      just sent. */
  lemma CommandCameFrom(f: Farm, step: Step, c: Connection, i: nat, r: RequestId)
    requires FarmInv(f) && Enabled(f, step) && OnWire(Apply(f, step).server, c, i, r)
    ensures var m := Apply(f, step).server.gateway.wire[c][i];
            || (OnWire(f.server, c, i, r) && f.server.gateway.wire[c][i] == m && ReadFrom(f, step) != Some(c))
            || (ReadFrom(f, step) == Some(c) && OnWire(f.server, c, i + 1, r) && f.server.gateway.wire[c][i + 1] == m)
            || (step.Executes? && SendsCommand(f.server, step) && c == CommandChannel(f.server, step) && r == step.requestId
                && c in f.server.gateway.wire && i == |f.server.gateway.wire[c]|
                && m == Command(r, step.device, step.occupantId, step.action))
  {
    if IsServerStep(step) {
      ServerCommandCameFrom(f, step, c, i, r);
    } else if step.Delivers? {
      assert AgentInv(f, step.agentId);
    }
  }

  lemma ServerCommandCameFrom(f: Farm, step: Step, c: Connection, i: nat, r: RequestId)
    requires FarmInv(f) && Enabled(f, step) && IsServerStep(step) && OnWire(ApplyToServer(f.server, step), c, i, r)
    ensures var m := ApplyToServer(f.server, step).gateway.wire[c][i];
            || (OnWire(f.server, c, i, r) && f.server.gateway.wire[c][i] == m)
            || (step.Executes? && SendsCommand(f.server, step) && c == CommandChannel(f.server, step) && r == step.requestId
                && c in f.server.gateway.wire && i == |f.server.gateway.wire[c]|
                && m == Command(r, step.device, step.occupantId, step.action))
  {
    hide ApplyToServer;
    if step.Executes? {
      ExecuteWire(f.server, step);
    } else {
      ServerStepIsQuiet(f, step);
      assert AppendsQuietly(ApplyToServer(f.server, step), f.server.gateway.wire[c], ApplyToServer(f.server, step).gateway.wire[c]);
    }
  }

  /** Connections keep their agent. */
  lemma AgentOfStays(f: Farm, step: Step, c: Connection)
    requires FarmInv(f) && Enabled(f, step)
    ensures c in f.server.gateway.agentOf ==>
              c in Apply(f, step).server.gateway.agentOf && Apply(f, step).server.gateway.agentOf[c] == f.server.gateway.agentOf[c]
  {
    hide ApplyToServer;
    if IsServerStep(step) {
      if step.Executes? { ExecuteWire(f.server, step); } else { ServerStepIsQuiet(f, step); }
    }
  }

  /** Every command on a channel was sent to the channel's agent. */
  lemma {:induction false} WireCommandWasSent(states: seq<Farm>, steps: seq<Step>, n: nat, c: Connection, i: nat, r: RequestId)
      returns (s: nat)
    requires IsRun(states, steps) && n < |states| && OnWire(states[n].server, c, i, r)
    ensures var server := states[n].server; var m := server.gateway.wire[c][i];
            && c in server.gateway.agentOf && s < n
            && SentAt(states, steps, s, server.gateway.agentOf[c], m.deviceId, m.occupantId, r)
  {
    hide Apply, Enabled, FarmInv;
    RunInv(states, steps, n);
    ChannelsHaveAgents(states[n], c);
    assert n > 0 by { NoChannelsAtFirst(states[0], c, i, r); }
    var f, step := states[n - 1], steps[n - 1];
    RunInv(states, steps, n - 1);
    CommandCameFrom(f, step, c, i, r);
    if c in f.server.gateway.wire { ChannelsHaveAgents(f, c); }
    AgentOfStays(f, step, c);
    if OnWire(f.server, c, i, r) && f.server.gateway.wire[c][i] == states[n].server.gateway.wire[c][i] {
      s := WireCommandWasSent(states, steps, n - 1, c, i, r);
    } else if OnWire(f.server, c, i + 1, r) && f.server.gateway.wire[c][i + 1] == states[n].server.gateway.wire[c][i] {
      s := WireCommandWasSent(states, steps, n - 1, c, i + 1, r);
    } else {
      s := n - 1;
      ChannelOwner(f, step);
    }
  }

  lemma ChannelsHaveAgents(f: Farm, c: Connection)
    requires FarmInv(f) && c in f.server.gateway.wire
    ensures c in f.server.gateway.agentOf
  {
  }

  lemma NoChannelsAtFirst(f: Farm, c: Connection, i: nat, r: RequestId)
    requires Init(f)
    ensures !OnWire(f.server, c, i, r)
  {
  }

  /** A command goes to the owner of its device. */
  lemma ChannelOwner(f: Farm, step: Step)
    requires FarmInv(f) && step.Executes? && SendsCommand(f.server, step)
    ensures CommandChannel(f.server, step) in f.server.gateway.agentOf
    ensures f.server.devices[step.device].agentId == Some(f.server.gateway.agentOf[CommandChannel(f.server, step)])
  {
  }

  lemma SendingIsRecorded(f: Farm, step: Step, a: AgentId, d: DeviceId, g: Generation, r: RequestId)
    requires FarmInv(f) && Enabled(f, step) && Sends(f, step, a, d, g, r)
    ensures r !in f.server.gateway.answers
    ensures var after := Apply(f, step).server.gateway; r in after.answers && r in after.pending && after.pending[r] == PendingCommand(a, d, g)
  {
  }

  /** A request sent once is known for ever. */
  lemma SentIsKnown(states: seq<Farm>, steps: seq<Step>, s: nat, n: nat, a: AgentId, d: DeviceId, g: Generation, r: RequestId)
    requires IsRun(states, steps) && SentAt(states, steps, s, a, d, g, r) && s < n < |states|
    ensures r in states[n].server.gateway.answers
  {
    hide Apply, Enabled, FarmInv, Sends;
    RunInv(states, steps, s);
    SendingIsRecorded(states[s], steps[s], a, d, g, r);
    AnswersGrowAlong(states, steps, s + 1, n);
  }

  /** No request is sent twice. */
  lemma SentOnce(states: seq<Farm>, steps: seq<Step>, s: nat, t: nat, a: AgentId, b: AgentId, d: DeviceId, e: DeviceId,
                 g: Generation, h: Generation, r: RequestId)
    requires IsRun(states, steps) && SentAt(states, steps, s, a, d, g, r) && SentAt(states, steps, t, b, e, h, r)
    ensures s == t && a == b && d == e && g == h
  {
    hide Apply, Enabled, FarmInv;
    RunInv(states, steps, s);
    RunInv(states, steps, t);
    SendingIsRecorded(states[s], steps[s], a, d, g, r);
    SendingIsRecorded(states[t], steps[t], b, e, h, r);
    if s < t { SentIsKnown(states, steps, s, t, a, d, g, r); }
    if t < s { SentIsKnown(states, steps, t, s, b, e, h, r); }
  }

  /** Agent a receives command r of occupation g of d. */
  ghost predicate Delivery(f: Farm, step: Step, a: AgentId, d: DeviceId, g: Generation, r: RequestId) {
    && step.Delivers? && step.agentId == a && Inbox(f, a) != []
    && Inbox(f, a)[0].Command? && Inbox(f, a)[0].requestId == r && Inbox(f, a)[0].deviceId == d && Inbox(f, a)[0].occupantId == g
  }

  /** A command stands in one place. */
  lemma {:induction false} OnWireOnce(states: seq<Farm>, steps: seq<Step>, n: nat, c: Connection, i: nat, e: Connection, j: nat, r: RequestId)
    requires IsRun(states, steps) && n < |states| && OnWire(states[n].server, c, i, r) && OnWire(states[n].server, e, j, r)
    ensures c == e && i == j
  {
    hide Apply, Enabled, FarmInv;
    assert n > 0 by { NoChannelsAtFirst(states[0], c, i, r); }
    var f, step := states[n - 1], steps[n - 1];
    RunInv(states, steps, n - 1);
    CommandCameFrom(f, step, c, i, r);
    CommandCameFrom(f, step, e, j, r);
    var shift := ReadFrom(f, step);
    var before, other := if shift == Some(c) then i + 1 else i, if shift == Some(e) then j + 1 else j;
    if OnWire(f.server, c, before, r) && OnWire(f.server, e, other, r) {
      OnWireOnce(states, steps, n - 1, c, before, e, other, r);
    } else if OnWire(f.server, c, before, r) {
      OldIsNotFresh(states, steps, n - 1, c, before, r);
    } else if OnWire(f.server, e, other, r) {
      OldIsNotFresh(states, steps, n - 1, e, other, r);
    }
  }

  /** What is on a channel is not sent again. */
  lemma OldIsNotFresh(states: seq<Farm>, steps: seq<Step>, n: nat, c: Connection, i: nat, r: RequestId)
    requires IsRun(states, steps) && n < |steps| && OnWire(states[n].server, c, i, r)
    ensures !(steps[n].Executes? && SendsCommand(states[n].server, steps[n]) && steps[n].requestId == r)
  {
    hide Apply, FarmInv, Sends;
    var s := WireCommandWasSent(states, steps, n, c, i, r);
    var m := states[n].server.gateway.wire[c][i];
    SentIsKnown(states, steps, s, n, states[n].server.gateway.agentOf[c], m.deviceId, m.occupantId, r);
  }

  /** Once delivered, a command is on no channel any more. */
  lemma {:induction false} DeliveredIsGone(states: seq<Farm>, steps: seq<Step>, i: nat, n: nat, a: AgentId, d: DeviceId, g: Generation,
                                           r: RequestId, c: Connection, k: nat)
    requires IsRun(states, steps) && i < n < |states| && Delivery(states[i], steps[i], a, d, g, r)
    ensures !OnWire(states[n].server, c, k, r)
  {
    hide Apply, Enabled, FarmInv;
    if OnWire(states[n].server, c, k, r) {
      var f, step := states[n - 1], steps[n - 1];
      RunInv(states, steps, n - 1);
      CommandCameFrom(f, step, c, k, r);
      if i == n - 1 {
        DeliveredWasFirst(f, step, a, d, g, r);
        var link := f.agents[a].link.value;
        if c == link { OnWireOnce(states, steps, n - 1, link, 0, c, k + 1, r); } else { OnWireOnce(states, steps, n - 1, link, 0, c, k, r); }
      } else {
        DeliveredIsGone(states, steps, i, n - 1, a, d, g, r, c, k);
        DeliveredIsGone(states, steps, i, n - 1, a, d, g, r, c, k + 1);
        DeliveredIsKnown(states, steps, i, n - 1, a, d, g, r);
      }
    }
  }

  lemma DeliveredWasFirst(f: Farm, step: Step, a: AgentId, d: DeviceId, g: Generation, r: RequestId)
    requires Delivery(f, step, a, d, g, r) && FarmInv(f)
    ensures a in f.agents && f.agents[a].link.Some? && OnWire(f.server, f.agents[a].link.value, 0, r)
    ensures var c := f.agents[a].link.value; var m := f.server.gateway.wire[c][0];
            m.deviceId == d && m.occupantId == g && c in f.server.gateway.agentOf && f.server.gateway.agentOf[c] == a
  {
    assert AgentInv(f, a);
  }

  lemma DeliveredWasSent(states: seq<Farm>, steps: seq<Step>, i: nat, a: AgentId, d: DeviceId, g: Generation, r: RequestId) returns (s: nat)
    requires IsRun(states, steps) && i < |steps| && Delivery(states[i], steps[i], a, d, g, r)
    ensures s < i && SentAt(states, steps, s, a, d, g, r)
  {
    hide Apply, Enabled, FarmInv, Sends;
    RunInv(states, steps, i);
    DeliveredWasFirst(states[i], steps[i], a, d, g, r);
    s := WireCommandWasSent(states, steps, i, states[i].agents[a].link.value, 0, r);
  }

  lemma DeliveredIsKnown(states: seq<Farm>, steps: seq<Step>, i: nat, n: nat, a: AgentId, d: DeviceId, g: Generation, r: RequestId)
    requires IsRun(states, steps) && i < n < |steps| && Delivery(states[i], steps[i], a, d, g, r)
    ensures !(steps[n].Executes? && SendsCommand(states[n].server, steps[n]) && steps[n].requestId == r)
  {
    hide Apply, FarmInv, Sends, Delivery;
    var s := DeliveredWasSent(states, steps, i, a, d, g, r);
    SentIsKnown(states, steps, s, n, a, d, g, r);
  }

  /** No command is delivered twice. */
  lemma DeliveredOnce(states: seq<Farm>, steps: seq<Step>, i: nat, j: nat, a: AgentId, b: AgentId, d: DeviceId, e: DeviceId,
                      g: Generation, h: Generation, r: RequestId)
    requires IsRun(states, steps) && i < |steps| && j < |steps|
    requires Delivery(states[i], steps[i], a, d, g, r) && Delivery(states[j], steps[j], b, e, h, r)
    ensures i == j
  {
    hide Apply, Enabled, FarmInv;
    RunInv(states, steps, i);
    RunInv(states, steps, j);
    DeliveredWasFirst(states[i], steps[i], a, d, g, r);
    DeliveredWasFirst(states[j], steps[j], b, e, h, r);
    if i < j { DeliveredIsGone(states, steps, i, j, a, d, g, r, states[j].agents[b].link.value, 0); }
    if j < i { DeliveredIsGone(states, steps, j, i, b, e, h, r, states[i].agents[a].link.value, 0); }
  }

  // What is in an agent's queues

  /** Agent a receives command r and takes it into the queue of d. */
  ghost predicate Takes(f: Farm, step: Step, a: AgentId, d: DeviceId, g: Generation, r: RequestId) {
    && Delivery(f, step, a, d, g, r)
    && Exec.VerdictOf(f.agents[a].executor, d, step.isRegistered, step.isReady).Queued?
  }

  ghost predicate IsAccepted(f: Farm, a: AgentId, k: nat) {
    a in f.agents && k < |f.agents[a].executor.accepted|
  }

  ghost predicate WasAccepted(f: Farm, a: AgentId, k: nat, x: Exec.Accepted) {
    IsAccepted(f, a, k) && f.agents[a].executor.accepted[k] == x
  }

  lemma AcceptedCameFrom(f: Farm, step: Step, a: AgentId, k: nat)
    requires Enabled(f, step) && IsAccepted(Apply(f, step), a, k)
    ensures var x := Apply(f, step).agents[a].executor.accepted[k];
            || WasAccepted(f, a, k, x)
            || (Takes(f, step, a, x.deviceId, x.occupantId, x.requestId) && a in f.agents && k == |f.agents[a].executor.accepted|)
  {
  }

  /** Every accepted command was delivered to its agent, hence sent to it. */
  lemma {:induction false} AcceptedWasDelivered(states: seq<Farm>, steps: seq<Step>, n: nat, a: AgentId, k: nat) returns (i: nat)
    requires IsRun(states, steps) && n < |states| && IsAccepted(states[n], a, k)
    ensures var x := states[n].agents[a].executor.accepted[k];
            i < n && Takes(states[i], steps[i], a, x.deviceId, x.occupantId, x.requestId)
  {
    hide Apply, Enabled, Takes;
    assert n > 0 by { NothingAcceptedAtFirst(states[0], a, k); }
    AcceptedCameFrom(states[n - 1], steps[n - 1], a, k);
    if WasAccepted(states[n - 1], a, k, states[n].agents[a].executor.accepted[k]) {
      i := AcceptedWasDelivered(states, steps, n - 1, a, k);
    } else {
      i := n - 1;
    }
  }

  lemma NothingAcceptedAtFirst(f: Farm, a: AgentId, k: nat)
    requires Init(f)
    ensures !IsAccepted(f, a, k)
  {
  }

  /** No command is accepted twice. */
  lemma {:induction false} AcceptedOnce(states: seq<Farm>, steps: seq<Step>, n: nat, a: AgentId, k: nat, b: AgentId, l: nat)
    requires IsRun(states, steps) && n < |states| && IsAccepted(states[n], a, k) && IsAccepted(states[n], b, l)
    requires states[n].agents[a].executor.accepted[k].requestId == states[n].agents[b].executor.accepted[l].requestId
    ensures a == b && k == l
  {
    hide Apply, Enabled;
    assert n > 0 by { NothingAcceptedAtFirst(states[0], a, k); }
    var x, y := states[n].agents[a].executor.accepted[k], states[n].agents[b].executor.accepted[l];
    AcceptedCameFrom(states[n - 1], steps[n - 1], a, k);
    AcceptedCameFrom(states[n - 1], steps[n - 1], b, l);
    if WasAccepted(states[n - 1], a, k, x) && WasAccepted(states[n - 1], b, l, y) {
      AcceptedOnce(states, steps, n - 1, a, k, b, l);
    } else if WasAccepted(states[n - 1], a, k, x) {
      TakenOnce(states, steps, n - 1, a, k, b, y);
    } else if WasAccepted(states[n - 1], b, l, y) {
      TakenOnce(states, steps, n - 1, b, l, a, x);
    }
  }

  lemma TakenOnce(states: seq<Farm>, steps: seq<Step>, n: nat, a: AgentId, k: nat, b: AgentId, y: Exec.Accepted)
    requires IsRun(states, steps) && n < |steps| && IsAccepted(states[n], a, k)
    requires states[n].agents[a].executor.accepted[k].requestId == y.requestId
    ensures !Takes(states[n], steps[n], b, y.deviceId, y.occupantId, y.requestId)
  {
    hide Apply, Enabled, Delivery;
    if Takes(states[n], steps[n], b, y.deviceId, y.occupantId, y.requestId) {
      var x := states[n].agents[a].executor.accepted[k];
      var i := AcceptedWasDelivered(states, steps, n, a, k);
      DeliveredOnce(states, steps, i, n, a, b, x.deviceId, y.deviceId, x.occupantId, y.occupantId, y.requestId);
    }
  }

  // Entries of the queues

  ghost predicate IsQueued(f: Farm, a: AgentId, d: DeviceId, k: nat) {
    a in f.agents && k < |Exec.QueueOf(f.agents[a].executor, d)|
  }

  function EntryAt(f: Farm, a: AgentId, d: DeviceId, k: nat): Exec.Entry
    requires a in f.agents && k < |Exec.QueueOf(f.agents[a].executor, d)|
  {
    Exec.QueueOf(f.agents[a].executor, d)[k]
  }

  lemma QueuedIsAccepted(f: Farm, a: AgentId, d: DeviceId, k: nat)
    requires FarmInv(f) && IsQueued(f, a, d, k)
    ensures var x := EntryAt(f, a, d, k);
            IsAccepted(f, a, x.ticket)
            && f.agents[a].executor.accepted[x.ticket] == Exec.Accepted(d, x.requestId, x.occupantId, x.enqueuedAt)
  {
    assert AgentInv(f, a) && Exec.QueueInv(f.agents[a].executor, d);
    assert Exec.EntryInv(f.agents[a].executor, d, EntryAt(f, a, d, k));
  }

  lemma QueuedWasTaken(states: seq<Farm>, steps: seq<Step>, n: nat, a: AgentId, d: DeviceId, k: nat) returns (i: nat)
    requires IsRun(states, steps) && n < |states| && IsQueued(states[n], a, d, k)
    ensures var x := EntryAt(states[n], a, d, k); i < n && Takes(states[i], steps[i], a, d, x.occupantId, x.requestId)
  {
    hide Apply, Enabled, FarmInv, Takes;
    RunInv(states, steps, n);
    QueuedIsAccepted(states[n], a, d, k);
    i := AcceptedWasDelivered(states, steps, n, a, EntryAt(states[n], a, d, k).ticket);
  }

  /** No command stands twice in the queues. */
  lemma QueuedOnce(states: seq<Farm>, steps: seq<Step>, n: nat, a: AgentId, d: DeviceId, k: nat, b: AgentId, e: DeviceId, l: nat)
    requires IsRun(states, steps) && n < |states| && IsQueued(states[n], a, d, k) && IsQueued(states[n], b, e, l)
    requires EntryAt(states[n], a, d, k).requestId == EntryAt(states[n], b, e, l).requestId
    ensures a == b && d == e && k == l
  {
    hide Apply, Enabled, FarmInv;
    RunInv(states, steps, n);
    QueuedIsAccepted(states[n], a, d, k);
    QueuedIsAccepted(states[n], b, e, l);
    AcceptedOnce(states, steps, n, a, EntryAt(states[n], a, d, k).ticket, b, EntryAt(states[n], b, e, l).ticket);
    TicketsDiffer(states[n], a, d);
  }

  lemma TicketsDiffer(f: Farm, a: AgentId, d: DeviceId)
    requires FarmInv(f) && a in f.agents
    ensures var q := Exec.QueueOf(f.agents[a].executor, d); forall i, j :: 0 <= i < j < |q| ==> q[i].ticket < q[j].ticket
  {
    assert AgentInv(f, a) && Exec.QueueInv(f.agents[a].executor, d);
  }

  /** The step hands command r to the controller. */
  ghost predicate StartsRequest(f: Farm, step: Step, a: AgentId, d: DeviceId, g: Generation, r: RequestId) {
    StartsCommand(f, step, a, d, g) && EntryAt(f, a, d, 0).requestId == r
  }

  /** A command that starts was sent to this agent, for this device and this occupation, and delivered to it since. */
  lemma StartedWasSent(states: seq<Farm>, steps: seq<Step>, n: nat, a: AgentId, d: DeviceId, g: Generation, r: RequestId)
      returns (s: nat, i: nat)
    requires IsRun(states, steps) && n < |steps| && StartsRequest(states[n], steps[n], a, d, g, r)
    ensures s < i < n && SentAt(states, steps, s, a, d, g, r) && Takes(states[i], steps[i], a, d, g, r)
  {
    hide Apply, Enabled, SentAt, Delivery;
    i := QueuedWasTaken(states, steps, n, a, d, 0);
    s := DeliveredWasSent(states, steps, i, a, d, g, r);
  }

  // Answers

  /** A pending entry does not change while it is pending, and no entry comes back. */
  lemma PendingStays(f: Farm, step: Step, r: RequestId)
    requires FarmInv(f) && Enabled(f, step) && r in f.server.gateway.answers && r in Apply(f, step).server.gateway.pending
    ensures r in f.server.gateway.pending && Apply(f, step).server.gateway.pending[r] == f.server.gateway.pending[r]
  {
    if EndsOccupations(step) {
      hide ApplyToServer;
      EndStepPending(f.server, step, r);
    } else {
      OtherStepPending(f, step, r);
    }
  }

  lemma EndStepPending(s: ServerState, step: Step, r: RequestId)
    requires EndsOccupations(step) && r in ApplyToServer(s, step).gateway.pending
    ensures r in s.gateway.pending && ApplyToServer(s, step).gateway.pending[r] == s.gateway.pending[r]
  {
    match step
    case Releases(d, g) => PublishParts(s.(devices := VacateAll(s.devices, {d})), EndedEvent(d, g, Released));
    case SweepsIdle(cutoff, ended) => PublishAllPending(s.(devices := VacateAll(s.devices, IdleIds(s.devices, cutoff))), ended, IdleExpired, r);
    case SweepsStale(cutoff, ended) => PublishAllPending(s.(devices := OfflineAll(s.devices, StaleIds(s.devices, cutoff))), ended, AgentStale, r);
  }

  lemma {:induction false} PublishAllPending(s: ServerState, list: seq<EndedOccupation>, reason: EndReason, r: RequestId)
    requires r in PublishAll(s, list, reason).gateway.pending
    ensures r in s.gateway.pending && PublishAll(s, list, reason).gateway.pending[r] == s.gateway.pending[r]
  {
    if list != [] {
      var init, last := list[..|list| - 1], list[|list| - 1];
      PublishParts(PublishAll(s, init, reason), EndedEvent(last.deviceId, last.occupantId, reason));
      PublishAllPending(s, init, reason, r);
    }
  }

  lemma OtherStepPending(f: Farm, step: Step, r: RequestId)
    requires FarmInv(f) && Enabled(f, step) && !EndsOccupations(step)
    requires r in f.server.gateway.answers && r in Apply(f, step).server.gateway.pending
    ensures r in f.server.gateway.pending && Apply(f, step).server.gateway.pending[r] == f.server.gateway.pending[r]
  {
    hide FarmInv, PublishEnded, PublishAll, WithRelay, Register;
    if ViewsOrRegisters(step) { ViewOrRegisterParts(f.server, step); }
  }

  /** As long as it is pending, a command is registered as what was sent. */
  lemma {:induction false} PendingIsAsSent(states: seq<Farm>, steps: seq<Step>, s: nat, n: nat, a: AgentId, d: DeviceId, g: Generation, r: RequestId)
    requires IsRun(states, steps) && SentAt(states, steps, s, a, d, g, r) && s < n < |states| && r in states[n].server.gateway.pending
    ensures states[n].server.gateway.pending[r] == PendingCommand(a, d, g)
    ensures forall k :: s < k <= n ==> r in states[k].server.gateway.pending
  {
    hide Apply, Enabled, FarmInv, Sends;
    RunInv(states, steps, n - 1);
    if n == s + 1 {
      SendingIsRecorded(states[s], steps[s], a, d, g, r);
    } else {
      SentIsKnown(states, steps, s, n - 1, a, d, g, r);
      PendingStays(states[n - 1], steps[n - 1], r);
      PendingIsAsSent(states, steps, s, n - 1, a, d, g, r);
    }
  }
}
