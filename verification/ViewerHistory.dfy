/** Who gets a device's frames, told from the steps of the run: viewers joining and leaving, and occupations. */
module ViewerHistory {
  import opened Common
  import opened DevicesRepository
  import opened StreamsRelay
  import opened AgentsGateway
  import opened Server
  import opened ServerInvariant
  import opened ServerGuarantees
  import opened Farm
  import opened FarmInvariant
  import opened AgentLag

  /** Viewer v comes with the current occupation g of d. */
  ghost predicate Joins(s: ServerState, step: Step, d: DeviceId, g: Generation, v: ViewerSocket) {
    step == ViewerJoins(d, g, v) && IsActive(s, d, g)
  }

  ghost predicate Watches(s: ServerState, d: DeviceId, g: Generation, v: ViewerSocket) {
    v in InnerOf(s.relay, d) && InnerOf(s.relay, d)[v] == g
  }

  /** The viewers after publishing the end of g: all but those of g. */
  lemma PublishDrops(s: ServerState, e: EndedEvent, d: DeviceId, g: Generation, v: ViewerSocket)
    ensures Watches(PublishEnded(s, e), d, g, v) <==> Watches(s, d, g, v) && !(e.deviceId == d && e.occupantId == g)
  {
    hide PublishEnded;
    PublishParts(s, e);
  }

  lemma {:induction false} PublishAllDrops(s: ServerState, list: seq<EndedOccupation>, reason: EndReason, d: DeviceId, g: Generation, v: ViewerSocket)
    ensures Watches(PublishAll(s, list, reason), d, g, v) <==> Watches(s, d, g, v) && EndedOccupation(d, g) !in list
  {
    hide PublishEnded, Watches;
    if list != [] {
      var init, last := list[..|list| - 1], list[|list| - 1];
      assert list == init + [last];
      PublishAllDrops(s, init, reason, d, g, v);
      PublishDrops(PublishAll(s, init, reason), EndedEvent(last.deviceId, last.occupantId, reason), d, g, v);
    }
  }

  /** Only the current occupation has viewers. */
  lemma WatchersAreActive(f: Farm, d: DeviceId, g: Generation, v: ViewerSocket)
    requires FarmInv(f) && Watches(f.server, d, g, v)
    ensures IsActive(f.server, d, g)
  {
    assert IsLive(f.server, {}, d, g);
  }

  lemma ViewerStepWatches(s: ServerState, step: Step, d: DeviceId, g: Generation, v: ViewerSocket)
    requires (step.ViewerJoins? || step.ViewerLeaves?) && (Watches(s, d, g, v) ==> IsActive(s, d, g))
    ensures ApplyToServer(s, step).devices == s.devices
    ensures Watches(ApplyToServer(s, step), d, g, v) <==> Joins(s, step, d, g, v) || (Watches(s, d, g, v) && step != ViewerLeaves(d, v))
  {
    hide Demand;
  }

  lemma EndStepWatches(f: Farm, step: Step, d: DeviceId, g: Generation, v: ViewerSocket)
    requires Enabled(f, step) && EndsOccupations(step) && (Watches(f.server, d, g, v) ==> IsActive(f.server, d, g))
    ensures Watches(Apply(f, step).server, d, g, v) <==> Watches(f.server, d, g, v) && IsActive(Apply(f, step).server, d, g)
  {
    hide PublishEnded, PublishAll;
    var s := f.server;
    match step
    case Releases(x, h) =>
      var mid := s.(devices := VacateAll(s.devices, {x}));
      PublishDrops(mid, EndedEvent(x, h, Released), d, g, v);
      PublishParts(mid, EndedEvent(x, h, Released));
    case SweepsIdle(cutoff, ended) =>
      var mid := s.(devices := VacateAll(s.devices, IdleIds(s.devices, cutoff)));
      PublishAllDrops(mid, ended, IdleExpired, d, g, v);
      PublishAllKeepsOpen(mid, ended, IdleExpired);
    case SweepsStale(cutoff, ended) =>
      var mid := s.(devices := OfflineAll(s.devices, StaleIds(s.devices, cutoff)));
      PublishAllDrops(mid, ended, AgentStale, d, g, v);
      PublishAllKeepsOpen(mid, ended, AgentStale);
  }

  lemma OtherStepWatches(f: Farm, step: Step, d: DeviceId, g: Generation, v: ViewerSocket)
    requires Enabled(f, step) && !EndsOccupations(step) && !step.ViewerJoins? && !step.ViewerLeaves?
    requires Watches(f.server, d, g, v) ==> IsActive(f.server, d, g)
    ensures Watches(Apply(f, step).server, d, g, v) <==> Watches(f.server, d, g, v)
    ensures Watches(f.server, d, g, v) ==> IsActive(Apply(f, step).server, d, g)
  {
    hide UpsertMany, Demand;
    if !step.Occupies? { HarmlessStepKeepsOccupations(f, step, d); }
  }

  /** One step of a run: a viewer watches if it joins, or watched and neither left nor lost its occupation. */
  lemma WatcherStep(f: Farm, step: Step, d: DeviceId, g: Generation, v: ViewerSocket)
    requires FarmInv(f) && Enabled(f, step)
    ensures Watches(Apply(f, step).server, d, g, v) <==>
              || Joins(f.server, step, d, g, v)
              || (Watches(f.server, d, g, v) && step != ViewerLeaves(d, v) && IsActive(Apply(f, step).server, d, g))
  {
    hide ApplyToServer, FarmInv, Watches, ServerEnabled;
    if Watches(f.server, d, g, v) { WatchersAreActive(f, d, g, v); }
    if EndsOccupations(step) {
      EndStepWatches(f, step, d, g, v);
    } else if step.ViewerJoins? || step.ViewerLeaves? {
      ViewerStepWatches(f.server, step, d, g, v);
    } else {
      OtherStepWatches(f, step, d, g, v);
    }
  }

  /** Viewer v came with occupation g of d at step i and has not left since. */
  ghost predicate HasJoined(states: seq<Farm>, steps: seq<Step>, i: nat, n: nat, d: DeviceId, g: Generation, v: ViewerSocket)
    requires IsRun(states, steps) && n <= |steps|
  {
    i < n && Joins(states[i].server, steps[i], d, g, v) && forall j :: i < j < n ==> steps[j] != ViewerLeaves(d, v)
  }

  /** In every run the viewers of a device are exactly those that came with its current occupation and have not left since. */
  lemma {:induction false} WatchesIff(states: seq<Farm>, steps: seq<Step>, n: nat, d: DeviceId, g: Generation, v: ViewerSocket)
    requires IsRun(states, steps) && n <= |steps|
    ensures Watches(states[n].server, d, g, v) <==>
              IsActive(states[n].server, d, g) && exists i: nat :: HasJoined(states, steps, i, n, d, g, v)
  {
    hide Apply, Enabled, FarmInv, Watches, IsActive;
    if n == 0 {
      NobodyAtFirst(states[0], d, g, v);
    } else {
      RunInv(states, steps, n - 1);
      RunInv(states, steps, n);
      WatchesIff(states, steps, n - 1, d, g, v);
      WatcherStep(states[n - 1], steps[n - 1], d, g, v);
      if Watches(states[n].server, d, g, v) { WatchersAreActive(states[n], d, g, v); }
      if exists i: nat :: HasJoined(states, steps, i, n, d, g, v) {
        var i: nat :| HasJoined(states, steps, i, n, d, g, v);
        if i < n - 1 {
          assert HasJoined(states, steps, i, n - 1, d, g, v);
          if IsActive(states[n].server, d, g) {
            JoinedActive(states[i].server, steps[i], d, g, v);
            ActiveBetween(states, steps, i, n - 1, n, d, g);
          }
        }
      }
      if Joins(states[n - 1].server, steps[n - 1], d, g, v) {
        assert HasJoined(states, steps, n - 1, n, d, g, v);
      } else if Watches(states[n - 1].server, d, g, v) && steps[n - 1] != ViewerLeaves(d, v) {
        var i: nat :| HasJoined(states, steps, i, n - 1, d, g, v);
        assert HasJoined(states, steps, i, n, d, g, v);
      }
    }
  }

  lemma JoinedActive(s: ServerState, step: Step, d: DeviceId, g: Generation, v: ViewerSocket)
    requires Joins(s, step, d, g, v)
    ensures IsActive(s, d, g)
  {
  }

  lemma NobodyAtFirst(f: Farm, d: DeviceId, g: Generation, v: ViewerSocket)
    requires Init(f)
    ensures !Watches(f.server, d, g, v)
  {
  }

  /** In every run a frame of d goes to exactly these viewers: it came on the current socket of the agent that owns d, the viewer
      came with the occupation that is still the current one of d, has not left since, and its socket can take the frame. */
  lemma FrameArrivesIff(states: seq<Farm>, steps: seq<Step>, n: nat, v: ViewerSocket)
    requires IsRun(states, steps) && n < |steps| && steps[n].ReceivesFrame?
    ensures var s, c, d := states[n].server, steps[n].c, steps[n].device;
            v in FrameTargets(s, c, d, steps[n].writable) <==>
              && v in steps[n].writable
              && AgentOf(s.devices, d).Some? && AgentOf(s.devices, d).value in s.gateway.sockets
              && s.gateway.sockets[AgentOf(s.devices, d).value] == c
              && exists g, i: nat :: HasJoined(states, steps, i, n, d, g, v) && IsActive(s, d, g)
  {
    hide Apply, Enabled, FarmInv, HasJoined;
    var s, c, d := states[n].server, steps[n].c, steps[n].device;
    RunInv(states, steps, n);
    SocketsKnowAgents(states[n]);
    if v in InnerOf(s.relay, d) {
      WatchesIff(states, steps, n, d, InnerOf(s.relay, d)[v], v);
    }
    if exists g, i: nat :: HasJoined(states, steps, i, n, d, g, v) && IsActive(s, d, g) {
      var g, i: nat :| HasJoined(states, steps, i, n, d, g, v) && IsActive(s, d, g);
      WatchesIff(states, steps, n, d, g, v);
    }
  }

  lemma SocketsKnowAgents(f: Farm)
    requires FarmInv(f)
    ensures forall a :: a in f.server.gateway.sockets ==>
              f.server.gateway.sockets[a] in f.server.gateway.agentOf && f.server.gateway.agentOf[f.server.gateway.sockets[a]] == a
  {
  }
}
