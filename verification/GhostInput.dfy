/** No ghost input: once an agent has learnt that an occupation is over, none of its commands starts any more. */
module GhostInput {
  import opened Common
  import opened DevicesRepository
  import opened AgentsGateway
  import opened Server
  import opened ServerInvariant
  import opened StreamDemandGate
  import opened Farm
  import opened FarmInvariant
  import Exec = CommandExecutor

  /** The step hands a command of occupation g of device d to the controller of agent a. */
  ghost predicate StartsCommand(f: Farm, step: Step, a: AgentId, d: DeviceId, g: Generation) {
    && step.QueueTurn? && step.agentId == a && step.device == d
    && a in f.agents && Exec.Starts(f.agents[a].executor, d, step.now)
    && Exec.QueueOf(f.agents[a].executor, d)[0].occupantId == g
  }

  /** Agent a processes the end notice of occupation g of d. */
  ghost predicate ProcessesEnd(f: Farm, step: Step, a: AgentId, d: DeviceId, g: Generation) {
    step.Delivers? && step.agentId == a && Inbox(f, a) != [] && Inbox(f, a)[0] == OccupancyEnded(d, g)
  }

  /** Agent a accepts a command of occupation g of d into the device's queue. */
  ghost predicate AcceptsCommand(f: Farm, step: Step, a: AgentId, d: DeviceId, g: Generation) {
    && step.Delivers? && step.agentId == a && Inbox(f, a) != [] && IsCommandFor(Inbox(f, a)[0], d, g)
    && Exec.VerdictOf(f.agents[a].executor, d, step.isRegistered, step.isReady).Queued?
  }

  /** Agent a opens a connection, having seen the previous one close, after occupation g had ended on the server. */
  ghost predicate ReconnectsAfterEnd(f: Farm, step: Step, a: AgentId, g: Generation) {
    step.AgentOpens? && step.agentId == a && IsEnded(f.server, g)
  }

  /** Agent a has accepted a command of occupation g of d since its process started. */
  ghost predicate HasAccepted(f: Farm, a: AgentId, d: DeviceId, g: Generation) {
    a in f.agents && exists k :: 0 <= k < |f.agents[a].executor.accepted|
                                 && f.agents[a].executor.accepted[k].deviceId == d && f.agents[a].executor.accepted[k].occupantId == g
  }

  /** The three ways in which agent a learns that occupation g of d is over. */
  ghost predicate LearnsEnd(f: Farm, step: Step, a: AgentId, d: DeviceId, g: Generation) {
    || ProcessesEnd(f, step, a, d, g)
    || (exists h :: h != g && AcceptsCommand(f, step, a, d, h) && HasAccepted(f, a, d, g))
    || ReconnectsAfterEnd(f, step, a, g)
  }

  /** Occupation g of d has ended, agent a does not remember it, and no command of it is on the way to a. */
  ghost predicate Retired(f: Farm, a: AgentId, d: DeviceId, g: Generation) {
    && IsEnded(f.server, g)
    && (a in f.agents ==> Exec.OccupationOf(f.agents[a].executor, d) != Some(g))
    && forall i :: 0 <= i < |Inbox(f, a)| ==> !IsCommandFor(Inbox(f, a)[i], d, g)
  }

  lemma RetiredNeverStarts(f: Farm, step: Step, a: AgentId, d: DeviceId, g: Generation)
    requires Retired(f, a, d, g)
    ensures !StartsCommand(f, step, a, d, g)
  {
  }

  lemma QuietKeepsRetired(f: Farm, t: ServerState, a: AgentId, d: DeviceId, g: Generation)
    requires FarmInv(f) && Quiet(f.server, t) && Retired(f, a, d, g)
    ensures Retired(f.(server := t), a, d, g)
  {
    IsEndedGrows(f.server, t, g);
    if a in f.agents && f.agents[a].link.Some? {
      assert AgentInv(f, a);
      var c := f.agents[a].link.value;
      assert AppendsQuietly(t, f.server.gateway.wire[c], t.gateway.wire[c]);
    }
  }

  /** No command of an ended occupation is sent. */
  lemma EndedSendsNothing(f: Farm, step: Step, d: DeviceId, g: Generation)
    requires FarmInv(f) && step.Executes? && SendsCommand(f.server, step) && IsEnded(f.server, g)
    ensures !(step.device == d && step.occupantId == g)
  {
    assert step.device == d ==> OccupantInv(f.server, d);
  }

  lemma ExecuteKeepsRetired(f: Farm, step: Step, a: AgentId, d: DeviceId, g: Generation)
    requires FarmInv(f) && step.Executes? && Retired(f, a, d, g)
    ensures Retired(f.(server := ApplyToServer(f.server, step)), a, d, g)
  {
    hide ApplyToServer, SendsCommand, Inbox, IsEnded, WiresInv, AgentsInv, GatewayInv;
    ExecuteInbox(f, step, a);
    if SendsCommand(f.server, step) { EndedSendsNothing(f, step, d, g); }
    IsEndedGrows(f.server, ApplyToServer(f.server, step), g);
  }

  /** A command sent is the last in the inbox of the agent it is sent to. */
  lemma ExecuteInbox(f: Farm, step: Step, a: AgentId)
    requires GatewayInv(f.server.gateway) && step.Executes?
    ensures f.server.ended <= ApplyToServer(f.server, step).ended
    ensures var w, next := Inbox(f, a), Inbox(f.(server := ApplyToServer(f.server, step)), a);
            next == w || (SendsCommand(f.server, step) && next == w + [Command(step.requestId, step.device, step.occupantId, step.action)])
  {
    hide GatewayInv, ApplyToServer, SendsCommand, CommandChannel;
    ExecuteWire(f.server, step);
  }

  lemma DeliverKeepsRetired(f: Farm, b: AgentId, isRegistered: bool, isReady: bool, now: Time, a: AgentId, d: DeviceId, g: Generation)
    requires FarmInv(f) && Inbox(f, b) != [] && Retired(f, a, d, g)
    ensures Retired(DeliveredTo(f, b, isRegistered, isReady, now), a, d, g)
  {
    hide ServerInv, WiresInv;
    var after := DeliveredTo(f, b, isRegistered, isReady, now);
    IsEndedGrows(f.server, after.server, g);
    if a == b {
      assert Inbox(after, a) == Inbox(f, a)[1..];
      assert !IsCommandFor(Inbox(f, a)[0], d, g);
    } else if a in f.agents && f.agents[a].link.Some? {
      assert AgentInv(f, a) && AgentInv(f, b);
      assert Inbox(after, a) == Inbox(f, a);
    }
  }

  lemma OpenKeepsRetired(f: Farm, b: AgentId, c: Connection, a: AgentId, d: DeviceId, g: Generation)
    requires FarmInv(f) && b in f.agents && f.agents[b].link.None? && c !in f.server.gateway.agentOf && Retired(f, a, d, g)
    ensures Retired(OpenedBy(f, b, c), a, d, g)
  {
    hide WiresInv, ServerInv, AcceptedInv, InboxFollows;
    IsEndedGrows(f.server, OpenedBy(f, b, c).server, g);
    if a in f.agents { assert AgentInv(f, a); }
  }

  lemma OwnStepKeepsRetired(f: Farm, b: AgentId, step: Step, a: AgentId, d: DeviceId, g: Generation)
    requires b in f.agents && IsOwnStep(step) && OwnEnabled(f.agents[b], step) && Retired(f, a, d, g)
    ensures Retired(WithAgent(f, b, OwnStep(f.agents[b], step)), a, d, g)
  {
    var after := WithAgent(f, b, OwnStep(f.agents[b], step));
    assert IsEnded(after.server, g) <==> IsEnded(f.server, g);
    assert Inbox(after, a) == Inbox(f, a) || Inbox(after, a) == [];
  }

  lemma ServerStepKeepsRetired(f: Farm, step: Step, a: AgentId, d: DeviceId, g: Generation)
    requires FarmInv(f) && IsServerStep(step) && ServerEnabled(f.server, step) && Retired(f, a, d, g)
    ensures Retired(f.(server := ApplyToServer(f.server, step)), a, d, g)
  {
    if step.Executes? {
      ExecuteKeepsRetired(f, step, a, d, g);
    } else {
      ServerStepIsQuiet(f, step);
      QuietKeepsRetired(f, ApplyToServer(f.server, step), a, d, g);
    }
  }

  lemma StepKeepsRetired(f: Farm, step: Step, a: AgentId, d: DeviceId, g: Generation)
    requires FarmInv(f) && Enabled(f, step) && Retired(f, a, d, g)
    ensures Retired(Apply(f, step), a, d, g)
  {
    if IsServerStep(step) {
      ServerStepKeepsRetired(f, step, a, d, g);
    } else if step.Delivers? {
      DeliverKeepsRetired(f, step.agentId, step.isRegistered, step.isReady, step.now, a, d, g);
    } else if step.AgentOpens? {
      OpenKeepsRetired(f, step.agentId, step.c, a, d, g);
    } else {
      OwnStepKeepsRetired(f, step.agentId, step, a, d, g);
    }
  }

  /** Processing the notice retires the occupation: nothing of it can be behind its end notice on the channel. */
  lemma ProcessingEndRetires(f: Farm, a: AgentId, isRegistered: bool, isReady: bool, now: Time, d: DeviceId, g: Generation)
    requires FarmInv(f) && Inbox(f, a) != [] && Inbox(f, a)[0] == OccupancyEnded(d, g)
    ensures Retired(DeliveredTo(f, a, isRegistered, isReady, now), a, d, g)
  {
    var w, after := Inbox(f, a), DeliveredTo(f, a, isRegistered, isReady, now);
    assert ChannelInv(f.server, w);
    assert MessageInv(f.server, w[0]);
    IsEndedGrows(f.server, after.server, g);
    assert Inbox(after, a) == w[1..];
    forall i | 0 <= i < |w[1..]| ensures !IsCommandFor(w[1..][i], d, g) {
      assert OrderInv(w[0], w[i + 1]);
    }
  }

  /** An occupation of d that is not the newest has ended. */
  lemma OlderHasEnded(s: ServerState, d: DeviceId, g: Generation, h: Generation)
    requires OccupationInv(s, {}) && g < h < |s.issued| && s.issued[g] == d == s.issued[h]
    ensures IsEnded(s, g)
  {
    assert IsLive(s, {}, s.issued[g], g) || IsEnded(s, g);
    if IsActive(s, d, g) { ActiveIsNewest(s, d, g, h); }
  }

  /** Accepting another occupation's command retires every occupation accepted before. */
  lemma AcceptingAnotherRetires(f: Farm, a: AgentId, isRegistered: bool, isReady: bool, now: Time, d: DeviceId, g: Generation, h: Generation)
    requires FarmInv(f) && Inbox(f, a) != [] && IsCommandFor(Inbox(f, a)[0], d, h) && h != g && HasAccepted(f, a, d, g)
    requires Exec.VerdictOf(f.agents[a].executor, d, isRegistered, isReady).Queued?
    ensures Retired(DeliveredTo(f, a, isRegistered, isReady, now), a, d, g)
  {
    var w, after := Inbox(f, a), DeliveredTo(f, a, isRegistered, isReady, now);
    assert ChannelInv(f.server, w) && AgentInv(f, a);
    assert MessageInv(f.server, w[0]);
    assert g < h;
    OlderHasEnded(f.server, d, g, h);
    IsEndedGrows(f.server, after.server, g);
    assert Inbox(after, a) == w[1..];
    forall i | 0 <= i < |w[1..]| ensures !IsCommandFor(w[1..][i], d, g) {
      assert OrderInv(w[0], w[i + 1]);
    }
  }

  lemma LearningRetires(f: Farm, step: Step, a: AgentId, d: DeviceId, g: Generation)
    requires FarmInv(f) && Enabled(f, step) && LearnsEnd(f, step, a, d, g)
    ensures Retired(Apply(f, step), a, d, g)
  {
    hide ServerInv, AcceptedInv, InboxFollows, Exec.ExecutorInv;
    if ProcessesEnd(f, step, a, d, g) {
      ProcessingEndRetires(f, a, step.isRegistered, step.isReady, step.now, d, g);
    } else if ReconnectsAfterEnd(f, step, a, g) {
      assert AgentInv(f, a);
      IsEndedGrows(f.server, Apply(f, step).server, g);
    } else {
      var h :| h != g && AcceptsCommand(f, step, a, d, h) && HasAccepted(f, a, d, g);
      AcceptingAnotherRetires(f, a, step.isRegistered, step.isReady, step.now, d, g, h);
    }
  }

  lemma {:induction false} RetiredStays(states: seq<Farm>, steps: seq<Step>, i: nat, j: nat, a: AgentId, d: DeviceId, g: Generation)
    requires IsRun(states, steps) && i <= j < |states| && Retired(states[i], a, d, g)
    ensures Retired(states[j], a, d, g)
  {
    if i < j {
      var f, step := states[j - 1], steps[j - 1];
      RetiredStays(states, steps, i, j - 1, a, d, g);
      RunInv(states, steps, j - 1);
      StepKeepsRetired(f, step, a, d, g);
    }
  }

  /** In every run: after step i, by which agent a learns that occupation g of d is over, no later step j starts a
      command of g on a. (This needs no assumption on which agents register which devices.) */
  lemma NoGhostInput(states: seq<Farm>, steps: seq<Step>, i: nat, j: nat, a: AgentId, d: DeviceId, g: Generation)
    requires IsRun(states, steps) && i < j < |steps| && LearnsEnd(states[i], steps[i], a, d, g)
    ensures !StartsCommand(states[j], steps[j], a, d, g)
  {
    RunInv(states, steps, i);
    LearningRetires(states[i], steps[i], a, d, g);
    RetiredStays(states, steps, i + 1, j, a, d, g);
    RetiredNeverStarts(states[j], steps[j], a, d, g);
  }

  // The other way round: nothing is dropped without a reason.

  /** What makes agent a forget occupation g of d. */
  ghost predicate Forgets(f: Farm, step: Step, a: AgentId, d: DeviceId, g: Generation) {
    || ProcessesEnd(f, step, a, d, g)
    || (exists h :: h != g && AcceptsCommand(f, step, a, d, h))
    || ((step.AgentSeesClose? || step.AgentRestarts?) && step.agentId == a)
  }

  ghost predicate Remembers(f: Farm, a: AgentId, d: DeviceId, g: Generation) {
    a in f.agents && Exec.OccupationOf(f.agents[a].executor, d) == Some(g)
  }

  lemma StepRemembers(f: Farm, step: Step, a: AgentId, d: DeviceId, g: Generation)
    requires Enabled(f, step) && Remembers(f, a, d, g) && !Forgets(f, step, a, d, g)
    ensures Remembers(Apply(f, step), a, d, g)
  {
    if step.Delivers? && step.agentId == a && Inbox(f, a)[0].Command? && Inbox(f, a)[0].deviceId == d {
      var h := Inbox(f, a)[0].occupantId;
      assert h != g ==> !AcceptsCommand(f, step, a, d, h);
    }
  }

  lemma {:induction false} RemembersUntilForgotten(states: seq<Farm>, steps: seq<Step>, i: nat, j: nat, a: AgentId, d: DeviceId, g: Generation)
    requires IsRun(states, steps) && i <= j < |states| && Remembers(states[i], a, d, g)
    requires forall k :: i <= k < j ==> !Forgets(states[k], steps[k], a, d, g)
    ensures Remembers(states[j], a, d, g)
  {
    if i < j {
      RemembersUntilForgotten(states, steps, i, j - 1, a, d, g);
      StepRemembers(states[j - 1], steps[j - 1], a, d, g);
    }
  }

  /** In every run: if agent a accepted a command of occupation g of d at step i and nothing made it forget g since, then a
      command of g whose turn comes at step j within 15 s of its acceptance does start. */
  lemma TimelyCommandsStart(states: seq<Farm>, steps: seq<Step>, i: nat, j: nat, a: AgentId, d: DeviceId, g: Generation)
    requires IsRun(states, steps) && i < j < |steps| && AcceptsCommand(states[i], steps[i], a, d, g)
    requires forall k :: i < k < j ==> !Forgets(states[k], steps[k], a, d, g)
    requires steps[j].QueueTurn? && steps[j].agentId == a && steps[j].device == d
    requires a in states[j].agents && Exec.HeadIs(states[j].agents[a].executor, d, Exec.Waiting)
    requires var head := Exec.QueueOf(states[j].agents[a].executor, d)[0];
             head.occupantId == g && steps[j].now - head.enqueuedAt <= 15_000
    ensures StartsCommand(states[j], steps[j], a, d, g)
  {
    assert Remembers(states[i + 1], a, d, g);
    RemembersUntilForgotten(states, steps, i + 1, j, a, d, g);
  }

  /** Forgetting is complete. */
  lemma ForgettingForgets(f: Farm, step: Step, a: AgentId, d: DeviceId, g: Generation)
    requires Enabled(f, step) && Forgets(f, step, a, d, g)
    ensures !Remembers(Apply(f, step), a, d, g)
  {
    if exists h :: h != g && AcceptsCommand(f, step, a, d, h) {
      var h :| h != g && AcceptsCommand(f, step, a, d, h);
    }
  }

  /** Only accepting a command of g makes an agent remember g. */
  lemma RememberingNeedsAcceptance(f: Farm, step: Step, a: AgentId, d: DeviceId, g: Generation)
    requires Enabled(f, step) && !Remembers(f, a, d, g) && Remembers(Apply(f, step), a, d, g)
    ensures AcceptsCommand(f, step, a, d, g)
  {
  }

  /** At step i the agent accepts a command of g for d, and nothing before step j makes it forget g again. */
  ghost predicate StillHolds(states: seq<Farm>, steps: seq<Step>, i: nat, j: nat, a: AgentId, d: DeviceId, g: Generation)
    requires IsRun(states, steps) && j <= |steps|
  {
    && i < j && AcceptsCommand(states[i], steps[i], a, d, g)
    && forall k :: i < k < j ==> !Forgets(states[k], steps[k], a, d, g)
  }

  lemma {:induction false} RememberedWasAccepted(states: seq<Farm>, steps: seq<Step>, j: nat, a: AgentId, d: DeviceId, g: Generation)
      returns (i: nat)
    requires IsRun(states, steps) && j <= |steps| && Remembers(states[j], a, d, g)
    ensures StillHolds(states, steps, i, j, a, d, g)
    decreases j, 1
  {
    NothingRememberedAtFirst(states[0], a, d, g);
    if j > 0 {
      i := RememberedBefore(states, steps, j, a, d, g);
    }
  }

  lemma NothingRememberedAtFirst(f: Farm, a: AgentId, d: DeviceId, g: Generation)
    requires Init(f)
    ensures !Remembers(f, a, d, g)
  {
  }

  lemma {:induction false} RememberedBefore(states: seq<Farm>, steps: seq<Step>, j: nat, a: AgentId, d: DeviceId, g: Generation)
      returns (i: nat)
    requires IsRun(states, steps) && 0 < j <= |steps| && Remembers(states[j], a, d, g)
    ensures StillHolds(states, steps, i, j, a, d, g)
    decreases j, 0
  {
    hide Apply;
    var f, step := states[j - 1], steps[j - 1];
    if Remembers(f, a, d, g) {
      i := RememberedWasAccepted(states, steps, j - 1, a, d, g);
      assert !Forgets(f, step, a, d, g) by { if Forgets(f, step, a, d, g) { ForgettingForgets(f, step, a, d, g); } }
    } else {
      RememberingNeedsAcceptance(f, step, a, d, g);
      i := j - 1;
    }
  }

  /** The turn of a command of occupation g of d comes at agent a, not too late. */
  ghost predicate TimelyTurn(f: Farm, step: Step, a: AgentId, d: DeviceId, g: Generation) {
    && step.QueueTurn? && step.agentId == a && step.device == d
    && a in f.agents && Exec.HeadIs(f.agents[a].executor, d, Exec.Waiting)
    && var head := Exec.QueueOf(f.agents[a].executor, d)[0];
       head.occupantId == g && step.now - head.enqueuedAt <= 15_000
  }

  /** In every run: a command of g whose turn comes in time starts exactly if the agent has accepted a command of g (this one
      or a later one) since it last processed the end of g, accepted another occupation's command, lost its connection or
      restarted. */
  lemma StartsIff(states: seq<Farm>, steps: seq<Step>, j: nat, a: AgentId, d: DeviceId, g: Generation)
    requires IsRun(states, steps) && j < |steps| && TimelyTurn(states[j], steps[j], a, d, g)
    ensures StartsCommand(states[j], steps[j], a, d, g) <==> exists i: nat :: StillHolds(states, steps, i, j, a, d, g)
  {
    if StartsCommand(states[j], steps[j], a, d, g) {
      var i := RememberedWasAccepted(states, steps, j, a, d, g);
    }
    if exists i: nat :: StillHolds(states, steps, i, j, a, d, g) {
      var i: nat :| StillHolds(states, steps, i, j, a, d, g);
      TimelyCommandsStart(states, steps, i, j, a, d, g);
    }
  }

  /** Told from the last acceptance: if step i is the last before j at which the agent accepted a command of g, then a command
      of g whose turn comes in time at j starts exactly if nothing in between made the agent forget g. */
  lemma StartsIffNotForgotten(states: seq<Farm>, steps: seq<Step>, i: nat, j: nat, a: AgentId, d: DeviceId, g: Generation)
    requires IsRun(states, steps) && i < j < |steps| && TimelyTurn(states[j], steps[j], a, d, g)
    requires AcceptsCommand(states[i], steps[i], a, d, g)
    requires forall k :: i < k < j ==> !AcceptsCommand(states[k], steps[k], a, d, g)
    ensures StartsCommand(states[j], steps[j], a, d, g) <==> forall k :: i < k < j ==> !Forgets(states[k], steps[k], a, d, g)
  {
    StartsIff(states, steps, j, a, d, g);
    assert (forall k :: i < k < j ==> !Forgets(states[k], steps[k], a, d, g)) <==> StillHolds(states, steps, i, j, a, d, g);
    if exists x: nat :: StillHolds(states, steps, x, j, a, d, g) {
      var x: nat :| StillHolds(states, steps, x, j, a, d, g);
      assert x <= i;
      forall k | i < k < j ensures !Forgets(states[k], steps[k], a, d, g) {}
    }
  }
}
