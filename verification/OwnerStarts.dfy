/** In runs where each device is registered by one agent, that agent alone handles the device's commands; so learning
    that an occupation is over stops its commands everywhere. */
module OwnerStarts {
  import opened Common
  import opened DevicesRepository
  import opened AgentsGateway
  import opened Server
  import opened ServerInvariant
  import opened StreamDemandGate
  import opened Farm
  import opened FarmInvariant
  import opened GhostInput
  import opened AgentLag
  import Exec = CommandExecutor

  ghost predicate ChannelOwned(w: seq<ServerMessage>, own: Ownership, a: AgentId) {
    forall i :: 0 <= i < |w| && w[i].Command? ==> Owns(own, a, w[i].deviceId)
  }

  ghost predicate WiresOwned(s: ServerState, own: Ownership) {
    forall c :: c in s.gateway.wire && c in s.gateway.agentOf ==> ChannelOwned(s.gateway.wire[c], own, s.gateway.agentOf[c])
  }

  ghost predicate QueuesOwned(f: Farm, own: Ownership) {
    forall a :: a in f.agents ==> AcceptedOwned(f.agents[a].executor, own, a)
  }

  ghost predicate AcceptedOwned(e: Exec.ExecutorState, own: Ownership, a: AgentId) {
    forall k :: 0 <= k < |e.accepted| ==> Owns(own, a, e.accepted[k].deviceId)
  }

  lemma QuietKeepsOwned(s: ServerState, t: ServerState, own: Ownership)
    requires WiresOwned(s, own) && Quiet(s, t)
    ensures WiresOwned(t, own)
  {
    forall c | c in t.gateway.wire && c in t.gateway.agentOf ensures ChannelOwned(t.gateway.wire[c], own, t.gateway.agentOf[c]) {
      assert AppendsQuietly(t, s.gateway.wire[c], t.gateway.wire[c]) && ChannelOwned(s.gateway.wire[c], own, s.gateway.agentOf[c]);
    }
  }

  lemma ExecuteKeepsOwned(s: ServerState, step: Step, own: Ownership)
    requires GatewayInv(s.gateway) && WiresOwned(s, own) && TableOwned(s.devices, own) && step.Executes?
    ensures WiresOwned(ApplyToServer(s, step), own)
  {
    var t := ApplyToServer(s, step);
    ExecuteWire(s, step);
    forall c | c in t.gateway.wire && c in t.gateway.agentOf ensures ChannelOwned(t.gateway.wire[c], own, t.gateway.agentOf[c]) {
      assert ChannelOwned(s.gateway.wire[c], own, s.gateway.agentOf[c]);
      if SendsCommand(s, step) && c == CommandChannel(s, step) {
        assert AgentOf(s.devices, step.device) == Some(s.gateway.agentOf[c]);
      }
    }
  }

  lemma DeliverKeepsOwned(f: Farm, a: AgentId, isRegistered: bool, isReady: bool, now: Time, own: Ownership)
    requires FarmInv(f) && WiresOwned(f.server, own) && QueuesOwned(f, own) && Inbox(f, a) != []
    ensures WiresOwned(DeliveredTo(f, a, isRegistered, isReady, now).server, own)
    ensures QueuesOwned(DeliveredTo(f, a, isRegistered, isReady, now), own)
  {
    hide ServerInv, WiresInv;
    var after, w := DeliveredTo(f, a, isRegistered, isReady, now), Inbox(f, a);
    assert AgentInv(f, a) && ChannelOwned(w, own, a);
    assert AcceptedOwned(f.agents[a].executor, own, a);
    assert AcceptedOwned(after.agents[a].executor, own, a);
    forall c | c in after.server.gateway.wire && c in after.server.gateway.agentOf
      ensures ChannelOwned(after.server.gateway.wire[c], own, after.server.gateway.agentOf[c])
    {
      assert ChannelOwned(f.server.gateway.wire[c], own, f.server.gateway.agentOf[c]);
    }
  }

  lemma OpenKeepsOwned(f: Farm, a: AgentId, c: Connection, own: Ownership)
    requires WiresOwned(f.server, own) && QueuesOwned(f, own) && a in f.agents && c !in f.server.gateway.agentOf
    ensures WiresOwned(OpenedBy(f, a, c).server, own) && QueuesOwned(OpenedBy(f, a, c), own)
  {
    var after := OpenedBy(f, a, c);
    forall x | x in after.server.gateway.wire && x in after.server.gateway.agentOf
      ensures ChannelOwned(after.server.gateway.wire[x], own, after.server.gateway.agentOf[x])
    {
      if x != c { assert ChannelOwned(f.server.gateway.wire[x], own, f.server.gateway.agentOf[x]); }
    }
    forall b | b in after.agents ensures AcceptedOwned(after.agents[b].executor, own, b) {
      assert AcceptedOwned(f.agents[b].executor, own, b);
    }
  }

  lemma OwnStepKeepsOwned(f: Farm, a: AgentId, step: Step, own: Ownership)
    requires QueuesOwned(f, own) && a in f.agents && IsOwnStep(step) && OwnEnabled(f.agents[a], step)
    ensures QueuesOwned(WithAgent(f, a, OwnStep(f.agents[a], step)), own)
  {
    var after := WithAgent(f, a, OwnStep(f.agents[a], step));
    forall b | b in after.agents ensures AcceptedOwned(after.agents[b].executor, own, b) {
      assert AcceptedOwned(f.agents[b].executor, own, b);
    }
  }

  lemma ServerStepKeepsOwned(f: Farm, step: Step, own: Ownership)
    requires GatewayInv(f.server.gateway) && WiresOwned(f.server, own) && TableOwned(f.server.devices, own)
    requires IsServerStep(step) && ServerEnabled(f.server, step)
    ensures WiresOwned(ApplyToServer(f.server, step), own)
  {
    if step.Executes? {
      ExecuteKeepsOwned(f.server, step, own);
    } else {
      ServerStepIsQuiet(f, step);
      QuietKeepsOwned(f.server, ApplyToServer(f.server, step), own);
    }
  }

  lemma StepKeepsOwned(f: Farm, step: Step, own: Ownership)
    requires FarmInv(f) && WiresOwned(f.server, own) && QueuesOwned(f, own) && TableOwned(f.server.devices, own) && Enabled(f, step)
    ensures WiresOwned(Apply(f, step).server, own) && QueuesOwned(Apply(f, step), own)
  {
    if IsServerStep(step) {
      ServerStepKeepsOwned(f, step, own);
    } else if step.Delivers? {
      DeliverKeepsOwned(f, step.agentId, step.isRegistered, step.isReady, step.now, own);
    } else if step.AgentOpens? {
      OpenKeepsOwned(f, step.agentId, step.c, own);
    } else {
      OwnStepKeepsOwned(f, step.agentId, step, own);
    }
  }

  lemma {:induction false} OwnedRunCommands(states: seq<Farm>, steps: seq<Step>, own: Ownership, n: nat)
    requires IsOwnedRun(states, steps, own) && n < |states|
    ensures WiresOwned(states[n].server, own) && QueuesOwned(states[n], own)
  {
    if n > 0 {
      OwnedRunCommands(states, steps, own, n - 1);
      OwnedRunInv(states, steps, own, n - 1);
      StepKeepsOwned(states[n - 1], steps[n - 1], own);
    }
  }

  lemma OnlyOwnerStarts(states: seq<Farm>, steps: seq<Step>, own: Ownership, n: nat, a: AgentId, d: DeviceId, g: Generation)
    requires IsOwnedRun(states, steps, own) && n < |steps| && StartsCommand(states[n], steps[n], a, d, g)
    ensures Owns(own, a, d)
  {
    OwnedRunCommands(states, steps, own, n);
    RunInv(states, steps, n);
    var e := states[n].agents[a].executor;
    assert AgentInv(states[n], a) && AcceptedOwned(e, own, a);
    assert Exec.QueueInv(e, d) && Exec.EntryInv(e, d, Exec.QueueOf(e, d)[0]);
  }

  /** Once the device's agent has learnt at step i that occupation g of d is over, no later step j starts a command of g
      on any agent. */
  lemma NoGhostInputAnywhere(states: seq<Farm>, steps: seq<Step>, own: Ownership, i: nat, j: nat, a: AgentId, b: AgentId, d: DeviceId, g: Generation)
    requires IsOwnedRun(states, steps, own) && Owns(own, a, d)
    requires i < j < |steps| && LearnsEnd(states[i], steps[i], a, d, g)
    ensures !StartsCommand(states[j], steps[j], b, d, g)
  {
    if StartsCommand(states[j], steps[j], b, d, g) {
      OnlyOwnerStarts(states, steps, own, j, b, d, g);
      NoGhostInput(states, steps, i, j, a, d, g);
    }
  }
}
