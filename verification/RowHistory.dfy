/** What a device's row says about the past: its columns told from the steps of the run, and with them when occupations end
    and which devices can be handed out. */
module RowHistory {
  import opened Common
  import opened DevicesRepository
  import opened AgentsGateway
  import opened Server
  import opened ServerInvariant
  import opened ServerGuarantees
  import opened Farm
  import opened FarmInvariant
  import opened AgentLag

  /** An agent's current socket registers d. */
  ghost predicate Registers(s: ServerState, step: Step, d: DeviceId) {
    step.ReceivesRegister? && IsCurrent(s.gateway, step.c) && exists item :: item in step.items && item.id == d
  }

  /** The current socket of d's owner sends a heartbeat that lists d. */
  ghost predicate Beats(s: ServerState, step: Step, d: DeviceId) {
    && step.ReceivesHeartbeat? && IsCurrent(s.gateway, step.c) && d in step.ids
    && AgentOf(s.devices, d) == Some(s.gateway.agentOf[step.c])
  }

  ghost predicate HearsOf(s: ServerState, step: Step, d: DeviceId) {
    Registers(s, step, d) || Beats(s, step, d)
  }

  /** The registered socket of d's owner closes. */
  ghost predicate LosesOwner(s: ServerState, step: Step, d: DeviceId) {
    step.ServerSeesClose? && IsCurrent(s.gateway, step.c) && AgentOf(s.devices, d) == Some(s.gateway.agentOf[step.c])
  }

  /** The occupant keeps its occupation of d alive or sends a command to it; one the agent cannot take counts too. */
  ghost predicate Uses(s: ServerState, step: Step, d: DeviceId) {
    && (step.KeepsAlive? || step.Executes?) && step.device == d && IsActive(s, d, step.occupantId)
    && (step.Executes? ==> s.devices[d].isOnline && s.devices[d].agentId.Some?)
  }

  ghost predicate IsBefore(at: Option<Time>, cutoff: Time) {
    at.Some? ==> at.value < cutoff
  }

  ghost predicate SweptStale(s: ServerState, step: Step, d: DeviceId) {
    step.SweepsStale? && d in s.devices && IsBefore(s.devices[d].lastHeartbeatAt, step.cutoff)
  }

  ghost predicate SweptIdle(s: ServerState, step: Step, d: DeviceId) {
    step.SweepsIdle? && d in s.devices && IsBefore(s.devices[d].lastActivityAt, step.cutoff)
  }

  /** The step takes the device from its occupant, if it has one. */
  ghost predicate Frees(s: ServerState, step: Step, d: DeviceId) {
    (step.Releases? && step.device == d && IsActive(s, d, step.occupantId)) || SweptIdle(s, step, d) || SweptStale(s, step, d)
  }

  /** The table a step leaves. */
  function TableAfter(s: ServerState, step: Step): Table
    requires step.Occupies? ==> step.device in s.devices
  {
    match step
    case Occupies(d, _, now) => Occupy(s.devices, d, |s.issued|, now)
    case Releases(d, g) => if CheckOccupant(s.devices, d, g).Done? then VacateAll(s.devices, {d}) else s.devices
    case KeepsAlive(d, g, now) => if CheckOccupant(s.devices, d, g).Done? then Renew(s.devices, d, now) else s.devices
    case Executes(d, g, action, _, now) =>
      if ExecuteResultOf(s, d, g, action) in {NoDevice, WrongOccupant, Offline} then s.devices else Renew(s.devices, d, now)
    case SweepsIdle(cutoff, _) => VacateAll(s.devices, IdleIds(s.devices, cutoff))
    case SweepsStale(cutoff, _) => OfflineAll(s.devices, StaleIds(s.devices, cutoff))
    case ServerSeesClose(c) => if IsCurrent(s.gateway, c) then AgentOffline(s.devices, s.gateway.agentOf[c]) else s.devices
    case ReceivesRegister(c, items, _, now) =>
      if IsCurrent(s.gateway, c) then UpsertMany(s.devices, items, s.gateway.agentOf[c], now) else s.devices
    case ReceivesHeartbeat(c, ids, now) =>
      if IsCurrent(s.gateway, c) then Heartbeat(s.devices, ids, s.gateway.agentOf[c], now) else s.devices
    case _ => s.devices
  }

  lemma StepTable(f: Farm, step: Step)
    requires Enabled(f, step)
    ensures Apply(f, step).server.devices == TableAfter(f.server, step)
  {
    if IsServerStep(step) { ServerStepTable(f.server, step); }
  }

  lemma ServerStepTable(s: ServerState, step: Step)
    requires IsServerStep(step) && (step.Occupies? ==> step.device in s.devices)
    ensures ApplyToServer(s, step).devices == TableAfter(s, step)
  {
    hide PublishAll, PublishEnded, UpsertMany, Demand;
    match step
    case Releases(d, g) => PublishParts(s.(devices := VacateAll(s.devices, {d})), EndedEvent(d, g, Released));
    case SweepsIdle(cutoff, ended) => PublishAllKeepsOpen(s.(devices := VacateAll(s.devices, IdleIds(s.devices, cutoff))), ended, IdleExpired);
    case SweepsStale(cutoff, ended) => PublishAllKeepsOpen(s.(devices := OfflineAll(s.devices, StaleIds(s.devices, cutoff))), ended, AgentStale);
    case _ =>
  }

  /** A row appears only by a registration that lists its device. */
  lemma RowAppears(s: ServerState, step: Step, d: DeviceId)
    requires (step.Occupies? ==> step.device in s.devices) && d in TableAfter(s, step)
    ensures d in s.devices || Registers(s, step, d)
  {
    if step.ReceivesRegister? && IsCurrent(s.gateway, step.c) {
      UpsertManyAt(s.devices, step.items, s.gateway.agentOf[step.c], step.now, d);
    }
  }

  /** What a registration writes. */
  lemma RowRegistered(s: ServerState, step: Step, d: DeviceId)
    requires Registers(s, step, d)
    ensures d in TableAfter(s, step) && DescriptionOf(step.items, d).Some?
    ensures var y := TableAfter(s, step)[d];
            && y.isOnline && y.agentId == Some(s.gateway.agentOf[step.c]) && y.lastHeartbeatAt == Some(step.now)
            && y.info == DescriptionOf(step.items, d).value
            && (d in s.devices ==> y.occupantId == s.devices[d].occupantId && y.lastActivityAt == s.devices[d].lastActivityAt)
            && (d !in s.devices ==> y.occupantId.None? && y.lastActivityAt.None?)
  {
    UpsertManyAt(s.devices, step.items, s.gateway.agentOf[step.c], step.now, d);
    var item :| item in step.items && item.id == d;
    assert d in RegisteredIds(step.items);
  }

  /** What every other step does to a row there is, column by column. */
  lemma RowStep(s: ServerState, step: Step, d: DeviceId)
    requires (step.Occupies? ==> step.device in s.devices) && d in s.devices && RowInv(s.devices[d]) && !Registers(s, step, d)
    ensures d in TableAfter(s, step)
    ensures var x, y := s.devices[d], TableAfter(s, step)[d];
            && y.info == x.info
            && y.lastHeartbeatAt == (if Beats(s, step, d) then Some(step.now) else x.lastHeartbeatAt)
            && y.agentId == (if LosesOwner(s, step, d) then None else x.agentId)
            && y.isOnline == (Beats(s, step, d) || (x.isOnline && !LosesOwner(s, step, d) && !SweptStale(s, step, d)))
            && y.occupantId == (if step.Occupies? && step.device == d then Some(|s.issued|)
                                else if Frees(s, step, d) then None else x.occupantId)
            && y.lastActivityAt == (if (step.Occupies? && step.device == d) || Uses(s, step, d) then Some(step.now)
                                    else if Frees(s, step, d) then None else x.lastActivityAt)
  {
    if step.ReceivesRegister? && IsCurrent(s.gateway, step.c) {
      UpsertManyAt(s.devices, step.items, s.gateway.agentOf[step.c], step.now, d);
      assert d !in RegisteredIds(step.items);
    }
  }

  // Over runs

  /** One step of a run, seen from the row of d. */
  lemma RunRow(states: seq<Farm>, steps: seq<Step>, n: nat, d: DeviceId)
    requires IsRun(states, steps) && n < |steps|
    ensures var s, step := states[n].server, steps[n];
            && (step.Occupies? ==> step.device in s.devices)
            && states[n + 1].server.devices == TableAfter(s, step)
            && (d in s.devices ==> RowInv(s.devices[d]))
  {
    hide FarmInv, Apply;
    RunInv(states, steps, n);
    StepTable(states[n], steps[n]);
    if d in states[n].server.devices { RowsConsistentAt(states[n], d); }
  }

  lemma RowsConsistentAt(f: Farm, d: DeviceId)
    requires FarmInv(f) && d in f.server.devices
    ensures RowInv(f.server.devices[d])
  {
  }

  /** Step k is the last before n at which the server hears of d. */
  ghost predicate LastHeard(states: seq<Farm>, steps: seq<Step>, k: nat, n: nat, d: DeviceId)
    requires IsRun(states, steps) && n <= |steps|
  {
    k < n && HearsOf(states[k].server, steps[k], d) && forall j :: k < j < n ==> !HearsOf(states[j].server, steps[j], d)
  }

  /** Step k is the last before n at which d is registered. */
  ghost predicate LastRegistered(states: seq<Farm>, steps: seq<Step>, k: nat, n: nat, d: DeviceId)
    requires IsRun(states, steps) && n <= |steps|
  {
    k < n && Registers(states[k].server, steps[k], d) && forall j :: k < j < n ==> !Registers(states[j].server, steps[j], d)
  }

  /** An occupant begins to use d, keeps it or sends it a command. */
  ghost predicate IsActivity(s: ServerState, step: Step, d: DeviceId) {
    (step.Occupies? && step.device == d) || Uses(s, step, d)
  }

  /** Step k is the last before n at which an occupant of d is active. */
  ghost predicate LastUsed(states: seq<Farm>, steps: seq<Step>, k: nat, n: nat, d: DeviceId)
    requires IsRun(states, steps) && n <= |steps|
  {
    k < n && IsActivity(states[k].server, steps[k], d) && forall j :: k < j < n ==> !IsActivity(states[j].server, steps[j], d)
  }

  /** A row tells when the server last heard of its device and how the device was last described. */
  lemma {:induction false} HeardAndDescribed(states: seq<Farm>, steps: seq<Step>, n: nat, d: DeviceId) returns (k: nat, m: nat)
    requires IsRun(states, steps) && n <= |steps| && d in states[n].server.devices
    ensures LastHeard(states, steps, k, n, d) && states[n].server.devices[d].lastHeartbeatAt == Some(steps[k].now)
    ensures LastRegistered(states, steps, m, n, d) && DescriptionOf(steps[m].items, d) == Some(states[n].server.devices[d].info)
  {
    hide Apply, Enabled, TableAfter, Registers, Beats;
    assert n > 0 by { assert Init(states[0]); }
    var s, step := states[n - 1].server, steps[n - 1];
    RunRow(states, steps, n - 1, d);
    RowAppears(s, step, d);
    if Registers(s, step, d) {
      RowRegistered(s, step, d);
      RegisterHasItems(s, step, d);
      k, m := n - 1, n - 1;
    } else {
      RowStep(s, step, d);
      k, m := HeardAndDescribed(states, steps, n - 1, d);
      if Beats(s, step, d) { k := n - 1; }
    }
  }

  lemma RegisterHasItems(s: ServerState, step: Step, d: DeviceId)
    requires Registers(s, step, d)
    ensures step.ReceivesRegister?
  {
  }

  /** The row of an occupied device tells when its occupant was last active; nothing else is activity. */
  lemma {:induction false} ActiveSince(states: seq<Farm>, steps: seq<Step>, n: nat, d: DeviceId) returns (k: nat)
    requires IsRun(states, steps) && n <= |steps| && OccupantOf(states[n].server.devices, d).Some?
    ensures LastUsed(states, steps, k, n, d) && states[n].server.devices[d].lastActivityAt == Some(steps[k].now)
  {
    hide Apply, Enabled, TableAfter, Registers, Beats, Uses, Frees, LosesOwner, SweptStale;
    assert n > 0 by { assert Init(states[0]); }
    var s, step := states[n - 1].server, steps[n - 1];
    RunRow(states, steps, n - 1, d);
    RowAppears(s, step, d);
    if Registers(s, step, d) {
      RowRegistered(s, step, d);
      RegisterHasItems(s, step, d);
      NotActivity(s, step, d);
      k := ActiveSince(states, steps, n - 1, d);
    } else {
      RowStep(s, step, d);
      if IsActivity(s, step, d) {
        k := n - 1;
      } else {
        k := ActiveSince(states, steps, n - 1, d);
      }
    }
  }

  lemma NotActivity(s: ServerState, step: Step, d: DeviceId)
    requires step.ReceivesRegister?
    ensures !IsActivity(s, step, d)
  {
  }

  // When occupations end

  /** Why step n ends occupation g of d, in terms of the times at which the server last heard of d and at which the occupant was
      last active. */
  ghost predicate EndsIt(step: Step, d: DeviceId, g: Generation, heardAt: Time, activeAt: Time) {
    || step == Releases(d, g)
    || (step.SweepsIdle? && activeAt < step.cutoff)
    || (step.SweepsStale? && heardAt < step.cutoff)
  }

  function ReasonOf(step: Step): EndReason
    requires step.Releases? || step.SweepsIdle? || step.SweepsStale?
  {
    if step.Releases? then Released else if step.SweepsIdle? then IdleExpired else AgentStale
  }

  /** In every run: an active occupation ends at a step exactly if its occupant releases it, or an idle sweep comes with a cutoff
      after its last activity, or a stale sweep with a cutoff after the last registration or heartbeat that listed the
      device; and then its one end event says so. */
  lemma EndsExactlyWhen(states: seq<Farm>, steps: seq<Step>, n: nat, d: DeviceId, g: Generation, k: nat, l: nat)
    requires IsRun(states, steps) && n < |steps| && IsActive(states[n].server, d, g)
    requires LastHeard(states, steps, k, n, d) && LastUsed(states, steps, l, n, d)
    ensures !IsActive(states[n + 1].server, d, g) <==> EndsIt(steps[n], d, g, steps[k].now, steps[l].now)
    ensures EndsIt(steps[n], d, g, steps[k].now, steps[l].now) ==>
              EndedEvent(d, g, ReasonOf(steps[n])) in states[n + 1].server.ended
  {
    hide Apply, TableAfter, Registers, Beats, Uses, LosesOwner;
    var s, step := states[n].server, steps[n];
    var k0, m0 := HeardAndDescribed(states, steps, n, d);
    var l0 := ActiveSince(states, steps, n, d);
    assert k0 == k && l0 == l;
    RunRow(states, steps, n, d);
    if Registers(s, step, d) {
      RowRegistered(s, step, d);
      RegisterHasItems(s, step, d);
    } else {
      RowStep(s, step, d);
    }
    HeardAtStep(states[k].server, steps[k], d);
    ActiveAtStep(states[l].server, steps[l], d);
    if EndsIt(step, d, g, steps[k].now, steps[l].now) { EndIsPublished(states[n], step, d, g); }
  }

  predicate HasTime(step: Step) {
    step.ReceivesRegister? || step.ReceivesHeartbeat?
  }

  lemma HeardAtStep(s: ServerState, step: Step, d: DeviceId)
    requires HearsOf(s, step, d)
    ensures HasTime(step)
  {
  }

  lemma ActiveAtStep(s: ServerState, step: Step, d: DeviceId)
    requires IsActivity(s, step, d)
    ensures step.Occupies? || step.KeepsAlive? || step.Executes?
  {
  }

  lemma EndIsPublished(f: Farm, step: Step, d: DeviceId, g: Generation)
    requires Enabled(f, step) && IsActive(f.server, d, g) && Frees(f.server, step, d)
    ensures EndedEvent(d, g, ReasonOf(step)) in Apply(f, step).server.ended
  {
    hide PublishAll, PublishEnded;
    var s := f.server;
    match step
    case Releases(_, _) => PublishParts(s.(devices := VacateAll(s.devices, {d})), EndedEvent(d, g, Released));
    case SweepsIdle(cutoff, ended) =>
      assert EndedOccupation(d, g) in ended;
      PublishAllPublishes(s.(devices := VacateAll(s.devices, IdleIds(s.devices, cutoff))), ended, IdleExpired, EndedOccupation(d, g));
    case SweepsStale(cutoff, ended) =>
      assert EndedOccupation(d, g) in ended;
      PublishAllPublishes(s.(devices := OfflineAll(s.devices, StaleIds(s.devices, cutoff))), ended, AgentStale, EndedOccupation(d, g));
  }

  lemma {:induction false} PublishAllPublishes(s: ServerState, list: seq<EndedOccupation>, reason: EndReason, e: EndedOccupation)
    requires e in list
    ensures EndedEvent(e.deviceId, e.occupantId, reason) in PublishAll(s, list, reason).ended
  {
    var init, last := list[..|list| - 1], list[|list| - 1];
    PublishParts(PublishAll(s, init, reason), EndedEvent(last.deviceId, last.occupantId, reason));
    if e != last {
      assert e in init;
      PublishAllPublishes(s, init, reason, e);
    }
  }

  /** The same with a clock that does not run backwards: a stale sweep ends an occupation exactly if every registration and
      heartbeat that listed the device came before the cutoff. */
  lemma StaleSweepEndsIff(states: seq<Farm>, steps: seq<Step>, n: nat, d: DeviceId, g: Generation)
    requires IsRun(states, steps) && n < |steps| && steps[n].SweepsStale? && IsActive(states[n].server, d, g)
    requires forall i, j :: 0 <= i < j < n && HearsOf(states[i].server, steps[i], d) && HearsOf(states[j].server, steps[j], d) ==>
               steps[i].now <= steps[j].now
    ensures !IsActive(states[n + 1].server, d, g) <==>
              forall i :: 0 <= i < n && HearsOf(states[i].server, steps[i], d) ==> steps[i].now < steps[n].cutoff
    ensures !IsActive(states[n + 1].server, d, g) ==> EndedEvent(d, g, AgentStale) in states[n + 1].server.ended
  {
    hide IsRun, HearsOf;
    var k, m := HeardAndDescribed(states, steps, n, d);
    var l := ActiveSince(states, steps, n, d);
    EndsExactlyWhen(states, steps, n, d, g, k, l);
  }

  // Which devices can be handed out

  /** Since step k, at which the server heard of d, its owner was not lost and no stale sweep caught it. */
  ghost predicate StaysUp(states: seq<Farm>, steps: seq<Step>, k: nat, n: nat, d: DeviceId)
    requires IsRun(states, steps) && k < n <= |steps|
  {
    forall j :: k < j < n ==>
      !LosesOwner(states[j].server, steps[j], d) && !(steps[j].SweepsStale? && HasTime(steps[k]) && steps[k].now < steps[j].cutoff)
  }

  /** A device is online exactly if since the server last heard of it its owner was not lost and it was not swept. */
  lemma {:induction false} OnlineIff(states: seq<Farm>, steps: seq<Step>, n: nat, d: DeviceId, k: nat)
    requires IsRun(states, steps) && n <= |steps| && d in states[n].server.devices && LastHeard(states, steps, k, n, d)
    ensures states[n].server.devices[d].isOnline <==> StaysUp(states, steps, k, n, d)
  {
    hide Apply, Enabled, TableAfter, Registers, Beats, Uses, Frees, LosesOwner;
    var s, step := states[n - 1].server, steps[n - 1];
    RunRow(states, steps, n - 1, d);
    RowAppears(s, step, d);
    if k == n - 1 {
      if Registers(s, step, d) { RowRegistered(s, step, d); } else { RowStep(s, step, d); }
    } else {
      RowStep(s, step, d);
      HeardAtStep(states[k].server, steps[k], d);
      var k0, m0 := HeardAndDescribed(states, steps, n - 1, d);
      assert k0 == k;
      OnlineIff(states, steps, n - 1, d, k);
      assert StaysUp(states, steps, k, n, d) <==> StaysUp(states, steps, k, n - 1, d) && !LosesOwner(s, step, d) && !SweptStale(s, step, d);
    }
  }

  /** The device, its platform and every tag asked for. */
  ghost predicate Fits(filter: OccupyFilter, d: DeviceId, info: DeviceInfo) {
    && filter.deviceId in {None, Some(d)} && filter.platform in {None, Some(info.platform)}
    && forall tag :: tag in filter.tags ==> tag in info.tags
  }

  /** In every run: a device can be handed out for a filter exactly if it has no occupant, is still up since the server last heard
      of it, and its last registration described it as asked for. */
  lemma HandedOutIff(states: seq<Farm>, steps: seq<Step>, n: nat, d: DeviceId, filter: OccupyFilter, now: Time, k: nat, m: nat)
    requires IsRun(states, steps) && n <= |steps| && LastHeard(states, steps, k, n, d) && LastRegistered(states, steps, m, n, d)
    requires d in states[n].server.devices
    ensures Enabled(states[n], Occupies(d, filter, now)) <==>
              && OccupantOf(states[n].server.devices, d).None? && StaysUp(states, steps, k, n, d)
              && steps[m].ReceivesRegister? && DescriptionOf(steps[m].items, d).Some?
              && Fits(filter, d, DescriptionOf(steps[m].items, d).value)
  {
    hide Apply, HearsOf, Registers, StaysUp, IsCandidate, Fits;
    OnlineIff(states, steps, n, d, k);
    var k0, m0 := HeardAndDescribed(states, steps, n, d);
    assert m0 == m;
    RegisterHasItems(states[m].server, steps[m], d);
    CandidateFits(states[n].server.devices[d], d, filter);
  }

  lemma CandidateFits(x: Device, d: DeviceId, filter: OccupyFilter)
    ensures IsCandidate(x, d, filter) <==> x.isOnline && x.occupantId.None? && Fits(filter, d, x.info)
  {
    assert forall i :: 0 <= i < |filter.tags| ==> filter.tags[i] in filter.tags;
  }
}
