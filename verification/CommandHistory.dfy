/** When commands are sent and when they are answered, told from the steps of the run. */
module CommandHistory {
  import opened Common
  import opened DevicesRepository
  import opened AgentsGateway
  import opened Server
  import opened ServerInvariant
  import opened ServerGuarantees
  import opened Farm
  import opened FarmInvariant
  import opened RowHistory
  import Requests

  /** The current socket of agent a registers. */
  ghost predicate RegistersAgent(s: ServerState, step: Step, a: AgentId) {
    step.ReceivesRegister? && IsCurrent(s.gateway, step.c) && s.gateway.agentOf[step.c] == a
  }

  /** The registered socket of agent a closes. */
  ghost predicate LosesAgent(s: ServerState, step: Step, a: AgentId) {
    step.ServerSeesClose? && IsCurrent(s.gateway, step.c) && s.gateway.agentOf[step.c] == a
  }

  /** The kinds of actions the server takes agent a to know: those of its last registration, unless it was lost since. */
  ghost function KindsAt(states: seq<Farm>, steps: seq<Step>, n: nat, a: AgentId): set<string>
    requires IsRun(states, steps) && n <= |steps|
  {
    if n == 0 || LosesAgent(states[n - 1].server, steps[n - 1], a) then {"tap", "swipe", "typeText", "screenshot", "uiDump"}
    else if RegistersAgent(states[n - 1].server, steps[n - 1], a) then KindsSaid(steps[n - 1])
    else KindsAt(states, steps, n - 1, a)
  }

  /** A registration without a list means the actions known before there were lists. */
  function KindsSaid(step: Step): set<string>
    requires step.ReceivesRegister?
  {
    if step.capabilities.Some? then step.capabilities.value else {"tap", "swipe", "typeText", "screenshot", "uiDump"}
  }

  lemma StepKinds(f: Farm, step: Step, a: AgentId)
    requires Enabled(f, step)
    ensures CapabilitiesOf(Apply(f, step).server.gateway, a) ==
              if LosesAgent(f.server, step, a) then {"tap", "swipe", "typeText", "screenshot", "uiDump"}
              else if RegistersAgent(f.server, step, a) then KindsSaid(step)
              else CapabilitiesOf(f.server.gateway, a)
  {
    if EndsOccupations(step) {
      hide ApplyToServer, ServerEnabled;
      EndStepKinds(f.server, step);
    } else if ViewsOrRegisters(step) {
      hide ApplyToServer, ServerEnabled;
      ViewOrRegisterKinds(f.server, step, a);
    } else {
      OtherStepKinds(f, step, a);
    }
  }

  lemma ViewOrRegisterKinds(s: ServerState, step: Step, a: AgentId)
    requires ViewsOrRegisters(step)
    ensures CapabilitiesOf(ApplyToServer(s, step).gateway, a) ==
              if RegistersAgent(s, step, a) then KindsSaid(step) else CapabilitiesOf(s.gateway, a)
  {
    hide UpsertMany, Demand;
  }

  lemma OtherStepKinds(f: Farm, step: Step, a: AgentId)
    requires Enabled(f, step) && !EndsOccupations(step) && !ViewsOrRegisters(step)
    ensures CapabilitiesOf(Apply(f, step).server.gateway, a) ==
              if LosesAgent(f.server, step, a) then {"tap", "swipe", "typeText", "screenshot", "uiDump"}
              else CapabilitiesOf(f.server.gateway, a)
  {
    hide OwnStep, OwnEnabled, Receive, Inbox, ServerEnabled, Heartbeat, AgentOffline, Occupy, Renew;
  }

  lemma EndStepKinds(s: ServerState, step: Step)
    requires EndsOccupations(step)
    ensures ApplyToServer(s, step).gateway.capabilities == s.gateway.capabilities
  {
    match step
    case Releases(d, g) => PublishKinds(s.(devices := VacateAll(s.devices, {d})), EndedEvent(d, g, Released));
    case SweepsIdle(cutoff, ended) => PublishAllKinds(s.(devices := VacateAll(s.devices, IdleIds(s.devices, cutoff))), ended, IdleExpired);
    case SweepsStale(cutoff, ended) => PublishAllKinds(s.(devices := OfflineAll(s.devices, StaleIds(s.devices, cutoff))), ended, AgentStale);
  }

  lemma PublishKinds(s: ServerState, e: EndedEvent)
    ensures PublishEnded(s, e).gateway.capabilities == s.gateway.capabilities
  {
  }

  lemma {:induction false} PublishAllKinds(s: ServerState, list: seq<EndedOccupation>, reason: EndReason)
    ensures PublishAll(s, list, reason).gateway.capabilities == s.gateway.capabilities
  {
    if list != [] {
      var last := list[|list| - 1];
      PublishAllKinds(s, list[..|list| - 1], reason);
      PublishKinds(PublishAll(s, list[..|list| - 1], reason), EndedEvent(last.deviceId, last.occupantId, reason));
    }
  }

  lemma {:induction false} KindsAreKept(states: seq<Farm>, steps: seq<Step>, n: nat, a: AgentId)
    requires IsRun(states, steps) && n <= |steps|
    ensures CapabilitiesOf(states[n].server.gateway, a) == KindsAt(states, steps, n, a)
  {
    hide Apply, Enabled, LosesAgent, RegistersAgent;
    if n > 0 {
      KindsAreKept(states, steps, n - 1, a);
      StepKinds(states[n - 1], steps[n - 1], a);
    }
  }

  /** In every run: a command is sent exactly if it comes from the current occupant, its device is online, the registered socket of the
      device's owner is open, and the owner knows the action. Then it is the last message on that socket and waits for an answer
      with a timer; else no command, timer or message comes of it. */
  lemma SentExactlyWhen(states: seq<Farm>, steps: seq<Step>, n: nat, d: DeviceId, g: Generation, action: Action, r: RequestId, now: Time)
    requires IsRun(states, steps) && n < |steps| && steps[n] == Executes(d, g, action, r, now)
    ensures var s, t := states[n].server, states[n + 1].server;
            if OccupantOf(s.devices, d) == Some(g) && s.devices[d].isOnline && s.devices[d].agentId.Some?
               && var a := s.devices[d].agentId.value;
                  a in s.gateway.sockets && s.gateway.sockets[a] in s.gateway.open && action.kind in KindsAt(states, steps, n, a)
            then
              var a := s.devices[d].agentId.value; var c := s.gateway.sockets[a];
              && t.gateway.pending == s.gateway.pending[r := PendingCommand(a, d, g)] && t.gateway.timers == s.gateway.timers + {r}
              && t.gateway.answers == s.gateway.answers[r := []]
              && c in s.gateway.wire && t.gateway.wire == s.gateway.wire[c := s.gateway.wire[c] + [Command(r, d, g, action)]]
            else t.gateway == s.gateway
  {
    hide FarmInv, KindsAt;
    RunInv(states, steps, n);
    SocketsHaveWires(states[n]);
    if OccupantOf(states[n].server.devices, d) == Some(g) && states[n].server.devices[d].agentId.Some? {
      KindsAreKept(states, steps, n, states[n].server.devices[d].agentId.value);
    }
  }

  lemma SocketsHaveWires(f: Farm)
    requires FarmInv(f)
    ensures f.server.gateway.open <= f.server.gateway.wire.Keys
  {
  }

  /** In every run a pending command is answered at a step exactly for these reasons, and with these outcomes: its agent's registered socket
      brings its result, its timer fires, that socket closes, or its occupation ends. */
  lemma AnsweredExactlyWhen(states: seq<Farm>, steps: seq<Step>, n: nat, r: RequestId, outcome: CommandOutcome)
    requires IsRun(states, steps) && n < |steps| && r in states[n].server.gateway.pending
    ensures r in states[n + 1].server.gateway.answers
    ensures states[n + 1].server.gateway.answers[r] == [outcome] <==> Justifies(states[n], steps[n], r, outcome)
  {
    hide Apply, Enabled, FarmInv, AnswersIt;
    PendingIsCurrent(states, steps, n, r);
    AnswersGrowAlong(states, steps, n, n + 1);
    RunInv(states, steps, n);
    RunInv(states, steps, n + 1);
    AnsweredMeansOver(states[n + 1], r);
    if Justifies(states[n], steps[n], r, outcome) {
      if AnswersIt(states[n].server.gateway, steps[n], r, outcome) {
        OwnAnswer(states[n], steps[n], r, outcome);
      } else {
        EndedOneIsAnswered(states, steps, n, r);
      }
    }
    if r !in states[n + 1].server.gateway.pending { ResolvedForAReason(states, steps, n, r); }
  }

  lemma AnsweredMeansOver(f: Farm, r: RequestId)
    requires FarmInv(f) && r in f.server.gateway.answers
    ensures r in f.server.gateway.pending <==> f.server.gateway.answers[r] == []
  {
  }

  lemma OwnAnswer(f: Farm, step: Step, r: RequestId, outcome: CommandOutcome)
    requires FarmInv(f) && Enabled(f, step) && r in f.server.gateway.pending && AnswersIt(f.server.gateway, step, r, outcome)
    ensures r in Apply(f, step).server.gateway.answers && Apply(f, step).server.gateway.answers[r] == [outcome]
  {
    hide ApplyToServer, ServerEnabled;
    ServerOwnAnswer(f.server, step, r, outcome);
  }

  lemma ServerOwnAnswer(s: ServerState, step: Step, r: RequestId, outcome: CommandOutcome)
    requires GatewayInv(s.gateway) && r in s.gateway.pending && AnswersIt(s.gateway, step, r, outcome)
    ensures IsServerStep(step) && !step.Occupies?
    ensures r in ApplyToServer(s, step).gateway.answers && ApplyToServer(s, step).gateway.answers[r] == [outcome]
  {
    hide GatewayInv, Resolve;
    var g := s.gateway;
    PendingIsUnanswered(g, r);
    match step
    case CommandTimer(x) => ResolveAnswers(g, {x}, TimedOut, r);
    case ServerSeesClose(c) =>
      var a := g.agentOf[c];
      ResolveAnswers(g.(sockets := g.sockets - {a}, capabilities := g.capabilities - {a}, open := g.open - {c}),
                     PendingOfAgent(g, a), AgentDisconnected, r);
    case ReceivesResult(c, x, _) => ResolveAnswers(g, {x}, outcome, r);
  }

  /** The commands of an occupation that ends are answered so. */
  lemma EndedOneIsAnswered(states: seq<Farm>, steps: seq<Step>, n: nat, r: RequestId)
    requires IsRun(states, steps) && n < |steps| && r in states[n].server.gateway.pending
    requires IsEnded(states[n + 1].server, states[n].server.gateway.pending[r].occupantId)
    ensures r in states[n + 1].server.gateway.answers && states[n + 1].server.gateway.answers[r] == [AgentsGateway.OccupationEnded]
  {
    hide Apply, Enabled, FarmInv, AnswersIt;
    var g := states[n].server.gateway.pending[r].occupantId;
    PendingIsCurrent(states, steps, n, r);
    RunInv(states, steps, n);
    RunInv(states, steps, n + 1);
    AnswersGrowAlong(states, steps, n, n + 1);
    CurrentIsNotOver(states[n], r);
    CurrentIsNotOver(states[n + 1], r);
    if r in states[n + 1].server.gateway.pending { Requests.PendingStays(states[n], steps[n], r); }
    ResolvedForAReason(states, steps, n, r);
    if AnswersIt(states[n].server.gateway, steps[n], r, states[n + 1].server.gateway.answers[r][0]) {
      AnswerEndsNothing(states[n], steps[n], r, states[n + 1].server.gateway.answers[r][0]);
    }
  }

  lemma CurrentIsNotOver(f: Farm, r: RequestId)
    requires FarmInv(f) && r in f.server.gateway.answers
    ensures r in f.server.gateway.pending ==> !IsEnded(f.server, f.server.gateway.pending[r].occupantId)
  {
    if r in f.server.gateway.pending {
      var p := f.server.gateway.pending[r];
      assert IsLive(f.server, {}, p.deviceId, p.occupantId) && OccupantInv(f.server, p.deviceId);
    }
  }

  lemma AnswerEndsNothing(f: Farm, step: Step, r: RequestId, outcome: CommandOutcome)
    requires Enabled(f, step) && r in f.server.gateway.pending && AnswersIt(f.server.gateway, step, r, outcome)
    ensures Apply(f, step).server.ended == f.server.ended
  {
  }
}
