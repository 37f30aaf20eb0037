/** What the server promises over whole runs: occupations are conserved, only the current occupant is watching, and
    every command sent is answered exactly once, for a reason that concerns it. */
module ServerGuarantees {
  import opened Common
  import opened DevicesRepository
  import opened StreamsRelay
  import opened AgentsGateway
  import opened Server
  import opened ServerInvariant
  import opened Farm
  import opened FarmInvariant

  // Occupations

  function OccupiedIds(t: Table): set<DeviceId> {
    set d | d in t && t[d].occupantId.Some?
  }

  function Below(n: nat): set<Generation> {
    if n == 0 then {} else Below(n - 1) + {n - 1}
  }

  lemma {:induction false} BelowIs(n: nat)
    ensures |Below(n)| == n && forall g: Generation :: g in Below(n) <==> g < n
  {
    if n > 0 { BelowIs(n - 1); }
  }

  lemma {:induction false} InjectiveImageSize(t: Table, ids: set<DeviceId>)
    requires forall d :: d in ids ==> d in t && t[d].occupantId.Some?
    requires forall d, e :: d in ids && e in ids && t[d].occupantId == t[e].occupantId ==> d == e
    ensures |set d | d in ids :: t[d].occupantId.value| == |ids|
  {
    if ids != {} {
      var d :| d in ids;
      InjectiveImageSize(t, ids - {d});
      assert (set x | x in ids :: t[x].occupantId.value) == (set x | x in ids - {d} :: t[x].occupantId.value) + {t[d].occupantId.value};
    }
  }

  lemma {:induction false} DistinctEventsSize(events: seq<EndedEvent>)
    requires forall i, j :: 0 <= i < j < |events| ==> events[i].occupantId != events[j].occupantId
    ensures |set i | 0 <= i < |events| :: events[i].occupantId| == |events|
  {
    if events != [] {
      var init := events[..|events| - 1];
      DistinctEventsSize(init);
      assert (set i | 0 <= i < |events| :: events[i].occupantId)
          == (set i | 0 <= i < |init| :: init[i].occupantId) + {events[|events| - 1].occupantId};
    }
  }

  lemma ActiveOrOver(s: ServerState, active: set<Generation>, over: set<Generation>)
    requires OccupationInv(s, {})
    requires active == set d | d in OccupiedIds(s.devices) :: s.devices[d].occupantId.value
    requires over == set i | 0 <= i < |s.ended| :: s.ended[i].occupantId
    ensures active + over == Below(|s.issued|) && active !! over
  {
    BelowIs(|s.issued|);
    forall g | g in active ensures g < |s.issued| && !IsEnded(s, g) {
      var d :| d in OccupiedIds(s.devices) && s.devices[d].occupantId.value == g;
      assert OccupantInv(s, d);
    }
    forall g: Generation | g < |s.issued| ensures g in active + over {
      assert IsLive(s, {}, s.issued[g], g) || IsEnded(s, g);
      if IsActive(s, s.issued[g], g) { assert s.issued[g] in OccupiedIds(s.devices); }
    }
    forall g | g in over ensures IsEnded(s, g) && g < |s.issued| {}
  }

  /** Occupations started = occupations active + end events published. */
  lemma OccupationsConserved(states: seq<Farm>, steps: seq<Step>, n: nat)
    requires IsRun(states, steps) && n < |states|
    ensures var s := states[n].server; |s.issued| == |OccupiedIds(s.devices)| + |s.ended|
  {
    RunInv(states, steps, n);
    CountOccupations(states[n].server);
  }

  lemma CountOccupations(s: ServerState)
    requires OccupationInv(s, {})
    ensures |s.issued| == |OccupiedIds(s.devices)| + |s.ended|
  {
    var ids := OccupiedIds(s.devices);
    forall d, e | d in ids && e in ids && s.devices[d].occupantId == s.devices[e].occupantId ensures d == e {
      assert OccupantInv(s, d) && OccupantInv(s, e);
    }
    InjectiveImageSize(s.devices, ids);
    DistinctEventsSize(s.ended);
    BelowIs(|s.issued|);
    ActiveOrOver(s, set d | d in ids :: s.devices[d].occupantId.value, set i | 0 <= i < |s.ended| :: s.ended[i].occupantId);
  }

  /** A generation is on at most one device, the one it was issued for, ends by at most one event, and is either active
      or ended. */
  lemma EachOccupationEndsOnce(states: seq<Farm>, steps: seq<Step>, n: nat, g: Generation)
    requires IsRun(states, steps) && n < |states| && g < |states[n].server.issued|
    ensures var s := states[n].server;
      && (forall d :: IsActive(s, d, g) ==> d == s.issued[g])
      && (forall i, j :: 0 <= i < |s.ended| && 0 <= j < |s.ended| && s.ended[i].occupantId == s.ended[j].occupantId == g ==> i == j)
      && (IsActive(s, s.issued[g], g) <==> !IsEnded(s, g))
  {
    RunInv(states, steps, n);
    var s := states[n].server;
    assert IsLive(s, {}, s.issued[g], g) || IsEnded(s, g);
    forall d | IsActive(s, d, g) ensures d == s.issued[g] && !IsEnded(s, g) {
      assert OccupantInv(s, d);
    }
  }

  lemma HistoriesGrow(f: Farm, step: Step)
    requires FarmInv(f) && Enabled(f, step)
    ensures f.server.ended <= Apply(f, step).server.ended && f.server.issued <= Apply(f, step).server.issued
  {
    hide ApplyToServer;
    if IsServerStep(step) {
      if step.Executes? { ExecuteWire(f.server, step); } else { ServerStepIsQuiet(f, step); }
    }
  }

  lemma {:induction false} HistoriesGrowAlong(states: seq<Farm>, steps: seq<Step>, i: nat, j: nat)
    requires IsRun(states, steps) && i <= j < |states|
    ensures states[i].server.ended <= states[j].server.ended && states[i].server.issued <= states[j].server.issued
  {
    hide Apply, Enabled, FarmInv;
    if i < j {
      HistoriesGrowAlong(states, steps, i, j - 1);
      RunInv(states, steps, j - 1);
      HistoriesGrow(states[j - 1], steps[j - 1]);
    }
  }

  /** What has ended stays ended, */
  lemma StaysEnded(states: seq<Farm>, steps: seq<Step>, i: nat, j: nat, g: Generation)
    requires IsRun(states, steps) && i <= j < |states| && IsEnded(states[i].server, g)
    ensures IsEnded(states[j].server, g)
  {
    HistoriesGrowAlong(states, steps, i, j);
    IsEndedGrows(states[i].server, states[j].server, g);
  }

  /** so an occupation is active without interruption. */
  lemma ActiveBetween(states: seq<Farm>, steps: seq<Step>, i: nat, j: nat, n: nat, d: DeviceId, g: Generation)
    requires IsRun(states, steps) && i <= j <= n < |states| && IsActive(states[i].server, d, g) && IsActive(states[n].server, d, g)
    ensures IsActive(states[j].server, d, g)
  {
    hide Apply, Enabled;
    RunInv(states, steps, i);
    RunInv(states, steps, n);
    assert OccupantInv(states[i].server, d) && OccupantInv(states[n].server, d);
    HistoriesGrowAlong(states, steps, i, j);
    EachOccupationEndsOnce(states, steps, j, g);
    if IsEnded(states[j].server, g) { StaysEnded(states, steps, j, n, g); }
  }

  /** The table's columns agree: an occupation's three fields are set together, and an online device has an owner. */
  lemma RowsConsistent(states: seq<Farm>, steps: seq<Step>, n: nat, d: DeviceId)
    requires IsRun(states, steps) && n < |states| && d in states[n].server.devices
    ensures RowInv(states[n].server.devices[d])
  {
    RunInv(states, steps, n);
  }

  /** Registering, heartbeats, keepalives, commands, lost connections and everything agents do by themselves. */
  predicate IsHarmless(step: Step) {
    !step.Occupies? && !step.Releases? && !step.SweepsIdle? && !step.SweepsStale?
  }

  lemma HarmlessStepKeepsOccupations(f: Farm, step: Step, d: DeviceId)
    requires Enabled(f, step) && IsHarmless(step)
    ensures OccupantOf(Apply(f, step).server.devices, d) == OccupantOf(f.server.devices, d)
    ensures Apply(f, step).server.ended == f.server.ended
  {
    if step.ReceivesRegister? && IsCurrent(f.server.gateway, step.c) {
      UpsertManyAt(f.server.devices, step.items, f.server.gateway.agentOf[step.c], step.now, d);
    }
  }

  /** A stretch of a run made of such steps ends no occupation, an agent's disconnection included. */
  lemma {:induction false} BlipsEndNothing(states: seq<Farm>, steps: seq<Step>, i: nat, j: nat, d: DeviceId)
    requires IsRun(states, steps) && i <= j < |states|
    requires forall k :: i <= k < j ==> IsHarmless(steps[k])
    ensures OccupantOf(states[j].server.devices, d) == OccupantOf(states[i].server.devices, d)
    ensures states[j].server.ended == states[i].server.ended
  {
    if i < j {
      BlipsEndNothing(states, steps, i, j - 1, d);
      HarmlessStepKeepsOccupations(states[j - 1], steps[j - 1], d);
    }
  }

  // Viewers

  /** Between any two steps, every registered viewer belongs to the current occupation of its device, so a frame of the
      device reaches no socket of an ended one. */
  lemma ViewersAreCurrentOccupants(states: seq<Farm>, steps: seq<Step>, n: nat, d: DeviceId, v: ViewerSocket)
    requires IsRun(states, steps) && n < |states| && v in InnerOf(states[n].server.relay, d)
    ensures var s := states[n].server; var g := InnerOf(s.relay, d)[v]; IsActive(s, d, g) && !IsEnded(s, g)
  {
    RunInv(states, steps, n);
    var s := states[n].server;
    assert IsLive(s, {}, d, s.relay.viewers[d][v]) && OccupantInv(s, d);
  }

  /** Whenever a frame arrives in a run, it goes only to viewers of the current, not ended occupation of its device, and only
      if it came on the current socket of the agent that owns the device; and if it did, to every writable one of them. */
  lemma FramesReachCurrentOccupants(states: seq<Farm>, steps: seq<Step>, n: nat, v: ViewerSocket)
    requires IsRun(states, steps) && n < |steps| && steps[n].ReceivesFrame?
    ensures var s, d := states[n].server, steps[n].device; var targets := FrameTargets(s, steps[n].c, d, steps[n].writable);
            && (v in targets ==>
                  && v in InnerOf(s.relay, d) && v in steps[n].writable
                  && IsActive(s, d, InnerOf(s.relay, d)[v]) && !IsEnded(s, InnerOf(s.relay, d)[v])
                  && AgentOf(s.devices, d).Some? && AgentOf(s.devices, d).value in s.gateway.sockets
                  && s.gateway.sockets[AgentOf(s.devices, d).value] == steps[n].c)
            && ((AgentOf(s.devices, d).Some? && AgentOf(s.devices, d).value in s.gateway.sockets
                 && s.gateway.sockets[AgentOf(s.devices, d).value] == steps[n].c
                 && v in InnerOf(s.relay, d) && v in steps[n].writable) ==> v in targets)
  {
    hide Apply, Enabled;
    RunInv(states, steps, n);
    if v in InnerOf(states[n].server.relay, steps[n].device) {
      ViewersAreCurrentOccupants(states, steps, n, steps[n].device, v);
    }
  }

  lemma DemandNoticesAlternate(states: seq<Farm>, steps: seq<Step>, n: nat, j: nat)
    requires IsRun(states, steps) && n < |states| && j < |states[n].server.relay.notices|
    ensures var notices := states[n].server.relay.notices;
      && ((forall i :: 0 <= i < j ==> notices[i].deviceId != notices[j].deviceId) ==> notices[j].on)
      && (forall i :: (0 <= i < j && notices[i].deviceId == notices[j].deviceId
                       && forall k :: i < k < j ==> notices[k].deviceId != notices[j].deviceId) ==> notices[i].on != notices[j].on)
  {
    RunInv(states, steps, n);
    var notices := states[n].server.relay.notices;
    if forall i :: 0 <= i < j ==> notices[i].deviceId != notices[j].deviceId {
      FirstNoticeIsOn(notices, j);
    }
    forall i | 0 <= i < j && notices[i].deviceId == notices[j].deviceId
               && forall k :: i < k < j ==> notices[k].deviceId != notices[j].deviceId
      ensures notices[i].on != notices[j].on
    {
      NoticesAlternate(notices, i, j);
    }
  }

  // Commands

  /** A pending command was sent by the current occupant of its device to an agent that has a registered socket. */
  lemma PendingIsCurrent(states: seq<Farm>, steps: seq<Step>, n: nat, r: RequestId)
    requires IsRun(states, steps) && n < |states| && r in states[n].server.gateway.pending
    ensures var s := states[n].server; var p := s.gateway.pending[r];
      && IsActive(s, p.deviceId, p.occupantId) && p.agentId in s.gateway.sockets
      && r in s.gateway.timers && r in s.gateway.answers && s.gateway.answers[r] == []
  {
    RunInv(states, steps, n);
    var s := states[n].server;
    assert IsLive(s, {}, s.gateway.pending[r].deviceId, s.gateway.pending[r].occupantId);
  }

  ghost predicate AnswersGrow(g: GatewayState, h: GatewayState) {
    forall r :: r in g.answers ==> r in h.answers && g.answers[r] <= h.answers[r]
  }

  lemma {:induction false} PublishAllGrows(s: ServerState, list: seq<EndedOccupation>, reason: EndReason)
    ensures AnswersGrow(s.gateway, PublishAll(s, list, reason).gateway)
  {
    if list != [] {
      var init, last := list[..|list| - 1], list[|list| - 1];
      PublishAllGrows(s, init, reason);
      PublishGrows(PublishAll(s, init, reason), EndedEvent(last.deviceId, last.occupantId, reason));
    }
  }

  lemma PublishGrows(s: ServerState, e: EndedEvent)
    ensures AnswersGrow(s.gateway, PublishEnded(s, e).gateway)
  {
  }

  predicate EndsOccupations(step: Step) {
    step.Releases? || step.SweepsIdle? || step.SweepsStale?
  }

  lemma EndStepGrows(s: ServerState, step: Step)
    requires EndsOccupations(step)
    ensures AnswersGrow(s.gateway, ApplyToServer(s, step).gateway)
  {
    match step
    case Releases(d, g) => PublishGrows(s.(devices := VacateAll(s.devices, {d})), EndedEvent(d, g, Released));
    case SweepsIdle(cutoff, ended) => PublishAllGrows(s.(devices := VacateAll(s.devices, IdleIds(s.devices, cutoff))), ended, IdleExpired);
    case SweepsStale(cutoff, ended) => PublishAllGrows(s.(devices := OfflineAll(s.devices, StaleIds(s.devices, cutoff))), ended, AgentStale);
  }

  lemma StepGrowsAnswers(f: Farm, step: Step)
    requires Enabled(f, step)
    ensures AnswersGrow(f.server.gateway, Apply(f, step).server.gateway)
  {
    if EndsOccupations(step) {
      hide ApplyToServer;
      EndStepGrows(f.server, step);
    } else {
      OtherStepGrows(f, step);
    }
  }

  lemma OtherStepGrows(f: Farm, step: Step)
    requires Enabled(f, step) && !EndsOccupations(step)
    ensures AnswersGrow(f.server.gateway, Apply(f, step).server.gateway)
  {
    hide WithRelay, Register, OwnStep, OwnEnabled;
    if ViewsOrRegisters(step) { ViewOrRegisterParts(f.server, step); }
  }

  lemma {:induction false} AnswersGrowAlong(states: seq<Farm>, steps: seq<Step>, i: nat, j: nat)
    requires IsRun(states, steps) && i <= j < |states|
    ensures AnswersGrow(states[i].server.gateway, states[j].server.gateway)
  {
    hide Apply, Enabled, Init;
    if i < j {
      AnswersGrowAlong(states, steps, i, j - 1);
      StepGrowsAnswers(states[j - 1], steps[j - 1]);
    }
  }

  /** A command sent is either pending with its timer running, or resolved by one answer that never changes again. */
  lemma AnsweredExactlyOnce(states: seq<Farm>, steps: seq<Step>, i: nat, j: nat, r: RequestId)
    requires IsRun(states, steps) && i <= j < |states| && r in states[i].server.gateway.answers
    ensures var g, h := states[i].server.gateway, states[j].server.gateway;
      && r in h.answers
      && (if r in g.pending then g.answers[r] == [] && r in g.timers else |g.answers[r]| == 1)
      && (r !in g.pending ==> r !in h.pending && h.answers[r] == g.answers[r])
  {
    RunInv(states, steps, i);
    RunInv(states, steps, j);
    AnswersGrowAlong(states, steps, i, j);
  }

  /** The step answers request r: its own result from its agent's registered socket, its own timer, or the closing of that
      socket. */
  ghost predicate AnswersIt(g: GatewayState, step: Step, r: RequestId, outcome: CommandOutcome)
    requires r in g.pending
  {
    || (step.ReceivesResult? && step.requestId == r && step.outcome == outcome && IsCurrent(g, step.c) && g.agentOf[step.c] == g.pending[r].agentId)
    || (step == CommandTimer(r) && outcome == TimedOut)
    || (step.ServerSeesClose? && IsCurrent(g, step.c) && g.agentOf[step.c] == g.pending[r].agentId && outcome == AgentDisconnected)
  }

  /** Why a pending command can be resolved: one of those, or the end of its occupation. */
  ghost predicate Justifies(f: Farm, step: Step, r: RequestId, outcome: CommandOutcome)
    requires r in f.server.gateway.pending && Enabled(f, step)
  {
    || AnswersIt(f.server.gateway, step, r, outcome)
    || (IsEnded(Apply(f, step).server, f.server.gateway.pending[r].occupantId) && outcome == AgentsGateway.OccupationEnded)
  }

  /** How request r stands at t compared with s, if only ends of occupations were published in between. */
  ghost predicate FailedOnlyByEnd(s: ServerState, t: ServerState, r: RequestId)
    requires r in s.gateway.pending
  {
    if r in t.gateway.pending then t.gateway.pending[r] == s.gateway.pending[r]
    else r in t.gateway.answers && t.gateway.answers[r] == [AgentsGateway.OccupationEnded] && IsEnded(t, s.gateway.pending[r].occupantId)
  }

  lemma {:induction false} PublishAllResolves(s: ServerState, list: seq<EndedOccupation>, reason: EndReason, r: RequestId)
    requires GatewayInv(s.gateway) && r in s.gateway.pending
    ensures FailedOnlyByEnd(s, PublishAll(s, list, reason), r) && GatewayInv(PublishAll(s, list, reason).gateway)
  {
    if list != [] {
      var init, last := list[..|list| - 1], list[|list| - 1];
      var mid, e := PublishAll(s, init, reason), EndedEvent(last.deviceId, last.occupantId, reason);
      PublishAllResolves(s, init, reason, r);
      PublishKeepsGatewayInv(mid, e);
      PublishParts(mid, e);
      PublishAnswers(mid, e, r);
      if r in mid.gateway.pending {
        PublishResolves(mid, e, r);
      } else {
        IsEndedGrows(mid, PublishEnded(mid, e), s.gateway.pending[r].occupantId);
      }
    }
  }

  lemma PublishAnswers(s: ServerState, e: EndedEvent, r: RequestId)
    ensures var answers := PublishEnded(s, e).gateway.answers;
      && (r in answers <==> r in s.gateway.answers)
      && (r in answers ==>
            answers[r] == if r in PendingOfOccupation(s.gateway, e.deviceId, e.occupantId)
                          then s.gateway.answers[r] + [AgentsGateway.OccupationEnded] else s.gateway.answers[r])
  {
    var closed := WithRelay(s, e.deviceId, CloseViewers(s.relay, e.deviceId, e.occupantId));
    assert closed.gateway.answers == s.gateway.answers && closed.gateway.pending == s.gateway.pending;
  }

  lemma PublishResolves(s: ServerState, e: EndedEvent, r: RequestId)
    requires AnswersInv(s.gateway) && r in s.gateway.pending
    ensures FailedOnlyByEnd(s, PublishEnded(s, e), r)
  {
    PublishParts(s, e);
    PublishAnswers(s, e, r);
    assert PublishEnded(s, e).ended[|s.ended|] == e;
  }

  lemma ResolvedForAReason(states: seq<Farm>, steps: seq<Step>, n: nat, r: RequestId)
    requires IsRun(states, steps) && n < |steps|
    requires r in states[n].server.gateway.pending && r !in states[n + 1].server.gateway.pending
    ensures r in states[n + 1].server.gateway.answers && |states[n + 1].server.gateway.answers[r]| == 1
    ensures Justifies(states[n], steps[n], r, states[n + 1].server.gateway.answers[r][0])
  {
    RunInv(states, steps, n);
    StepJustifies(states[n], steps[n], r);
  }

  lemma EndStepResolves(s: ServerState, step: Step, r: RequestId)
    requires GatewayInv(s.gateway) && EndsOccupations(step) && r in s.gateway.pending
    ensures FailedOnlyByEnd(s, ApplyToServer(s, step), r)
  {
    hide AnswersInv, SocketsInv;
    match step
    case Releases(d, g) => PublishResolves(s.(devices := VacateAll(s.devices, {d})), EndedEvent(d, g, Released), r);
    case SweepsIdle(cutoff, ended) => PublishAllResolves(s.(devices := VacateAll(s.devices, IdleIds(s.devices, cutoff))), ended, IdleExpired, r);
    case SweepsStale(cutoff, ended) => PublishAllResolves(s.(devices := OfflineAll(s.devices, StaleIds(s.devices, cutoff))), ended, AgentStale, r);
  }

  /** The steps other than ends of occupations that can resolve a command. */
  predicate MayResolve(step: Step) {
    step.CommandTimer? || step.ServerSeesClose? || step.ReceivesResult?
  }

  lemma OthersKeepPending(f: Farm, step: Step, r: RequestId)
    requires Enabled(f, step) && !EndsOccupations(step) && !MayResolve(step) && r in f.server.gateway.pending
    ensures r in Apply(f, step).server.gateway.pending
  {
    hide WithRelay, Register, OwnStep, OwnEnabled;
    if ViewsOrRegisters(step) { ViewOrRegisterParts(f.server, step); }
  }

  lemma ResolveAnswers(g: GatewayState, requests: set<RequestId>, outcome: CommandOutcome, r: RequestId)
    requires r in g.pending && r in g.answers && g.answers[r] == []
    ensures var h := Resolve(g, requests, outcome);
            if r in requests then r !in h.pending && r in h.answers && h.answers[r] == [outcome] else r in h.pending
  {
  }

  lemma OtherStepAnswers(s: ServerState, step: Step, r: RequestId)
    requires GatewayInv(s.gateway) && MayResolve(step)
    requires r in s.gateway.pending && r !in ApplyToServer(s, step).gateway.pending
    ensures var answers := ApplyToServer(s, step).gateway.answers;
            r in answers && |answers[r]| == 1 && AnswersIt(s.gateway, step, r, answers[r][0])
  {
    hide GatewayInv, Resolve;
    var g := s.gateway;
    PendingIsUnanswered(g, r);
    match step
    case CommandTimer(x) => ResolveAnswers(g, {x}, TimedOut, r);
    case ServerSeesClose(c) =>
      if IsCurrent(g, c) {
        var a := g.agentOf[c];
        ResolveAnswers(g.(sockets := g.sockets - {a}, capabilities := g.capabilities - {a}, open := g.open - {c}),
                       PendingOfAgent(g, a), AgentDisconnected, r);
      }
    case ReceivesResult(c, x, outcome) => ResolveAnswers(g, {x}, outcome, r);
  }

  lemma PendingIsUnanswered(g: GatewayState, r: RequestId)
    requires GatewayInv(g) && r in g.pending
    ensures r in g.answers && g.answers[r] == []
  {
  }

  lemma StepJustifies(f: Farm, step: Step, r: RequestId)
    requires GatewayInv(f.server.gateway) && Enabled(f, step)
    requires r in f.server.gateway.pending && r !in Apply(f, step).server.gateway.pending
    ensures r in Apply(f, step).server.gateway.answers && |Apply(f, step).server.gateway.answers[r]| == 1
    ensures Justifies(f, step, r, Apply(f, step).server.gateway.answers[r][0])
  {
    if EndsOccupations(step) {
      hide ApplyToServer;
      EndStepResolves(f.server, step, r);
    } else {
      assert MayResolve(step) by { if !MayResolve(step) { OthersKeepPending(f, step, r); } }
      hide ApplyToServer;
      OtherStepAnswers(f.server, step, r);
    }
  }
}
