/** When a controller session is ready and when it restarts, told from the events since its last launch. */
module ControllerHealth {
  import opened Common
  import opened Processes
  import opened ControllerSupervisor

  /** A launch of d: at its start, or when its restart timer fires. */
  predicate Launches(e: Event, d: DeviceId) {
    (e.Starts? || e.RestartTimer?) && e.device == d
  }

  ghost predicate LastLaunch(events: seq<Event>, l: nat, n: nat, d: DeviceId)
    requires n <= |events|
  {
    l < n && Launches(events[l], d) && forall j :: l < j < n ==> !Launches(events[j], d)
  }

  /** The answer to a health check that was sent for generation `generation` of session `id`. */
  predicate Answers(e: Event, d: DeviceId, id: nat, generation: nat, isHealthy: bool) {
    e.Health? && e.device == d && e.id == id && e.generation == generation && e.isHealthy == isHealthy
  }

  /** A healthy answer came after event l. */
  ghost predicate WasHealthy(events: seq<Event>, l: nat, n: nat, d: DeviceId, id: nat, generation: nat)
    requires n <= |events|
  {
    exists i :: l < i < n && Answers(events[i], d, id, generation, true)
  }

  /** The failing answers after event l and after the last healthy one. */
  function FailsSince(events: seq<Event>, l: nat, n: nat, d: DeviceId, id: nat, generation: nat): nat
    requires n <= |events|
  {
    if n <= l + 1 then 0
    else if Answers(events[n - 1], d, id, generation, true) then 0
    else FailsSince(events, l, n - 1, d, id, generation) + if Answers(events[n - 1], d, id, generation, false) then 1 else 0
  }

  /** The processes of generation `generation` of session `id` of d run, and its health is polled. */
  ghost predicate IsPolled(s: SupervisorState, d: DeviceId, id: nat, generation: nat) {
    d in s.sessions && s.sessions[d].hasHealthTimer && s.sessions[d].id == id && s.sessions[d].generation == generation
  }

  /** What an event other than a launch does to a session that is polled afterwards. */
  lemma PolledStep(s: SupervisorState, e: Event, d: DeviceId, id: nat, generation: nat)
    requires SupervisorInv(s) && CanHappen(s, e) && IsPolled(Step(s, e), d, id, generation) && !Launches(e, d)
    ensures IsPolled(s, d, id, generation)
    ensures var x, y := s.sessions[d], Step(s, e).sessions[d];
            && y.launchedAt == x.launchedAt
            && y.isReady == (x.isReady || Answers(e, d, id, generation, true))
            && y.healthFailCount == (if Answers(e, d, id, generation, true) then 0
                                     else if Answers(e, d, id, generation, false) then x.healthFailCount + 1 else x.healthFailCount)
            && (y.isReady && y.healthFailCount >= 3 ==> x.isReady && x.healthFailCount >= 3)
  {
    hide PortsInv, ChildrenInv;
  }

  /** What a launch leaves: both processes and the health timer, or, if a spawn throws, a restart timer. */
  lemma LaunchStep(s: SupervisorState, e: Event, d: DeviceId)
    requires SupervisorInv(s) && CanHappen(s, e) && Launches(e, d)
    ensures var t := Step(s, e);
            && d in t.sessions && !t.sessions[d].isReady && t.sessions[d].healthFailCount == 0 && t.sessions[d].launchedAt == e.now
            && t.sessions[d].hasHealthTimer == e.fate.BothRun? && t.sessions[d].hasRestartTimer == !e.fate.BothRun?
            && t.sessions[d].generation == (if d in s.sessions then s.sessions[d].generation + 1 else 1)
            && t.sessions[d].id == (if d in s.sessions then s.sessions[d].id else s.nextSession)
            && t.sessions[d].restartAttempt == (if d in s.sessions then s.sessions[d].restartAttempt else 0) + (if e.fate.BothRun? then 0 else 1)
  {
    hide PortsInv, ChildrenInv;
  }

  /** A polled session was launched, and its columns are told by the answers since. */
  lemma {:induction false} PolledSince(states: seq<SupervisorState>, events: seq<Event>, basePort: nat, n: nat, d: DeviceId, id: nat, generation: nat)
      returns (l: nat)
    requires IsRun(states, events, basePort) && n <= |events| && IsPolled(states[n], d, id, generation)
    ensures LastLaunch(events, l, n, d)
    ensures var x := states[n].sessions[d];
            && x.launchedAt == events[l].now
            && (x.isReady <==> WasHealthy(events, l, n, d, id, generation))
            && x.healthFailCount == FailsSince(events, l, n, d, id, generation)
            && (x.isReady ==> x.healthFailCount < 3)
  {
    hide Step, CanHappen, SupervisorInv;
    RunKeepsInv(states, events, basePort, n);
    assert n > 0;
    var s, e := states[n - 1], events[n - 1];
    RunKeepsInv(states, events, basePort, n - 1);
    if Launches(e, d) {
      LaunchStep(s, e, d);
      l := n - 1;
    } else {
      PolledStep(s, e, d, id, generation);
      l := PolledSince(states, events, basePort, n - 1, d, id, generation);
      HealthyUpTo(events, l, n, d, id, generation);
    }
  }

  lemma HealthyUpTo(events: seq<Event>, l: nat, n: nat, d: DeviceId, id: nat, generation: nat)
    requires l + 1 < n <= |events|
    ensures WasHealthy(events, l, n, d, id, generation)
            <==> WasHealthy(events, l, n - 1, d, id, generation) || Answers(events[n - 1], d, id, generation, true)
  {
  }

  /** In every run: a session whose health is polled is ready exactly if a healthy answer of its present generation came since its
      last launch. */
  lemma ReadyIff(states: seq<SupervisorState>, events: seq<Event>, basePort: nat, n: nat, d: DeviceId, l: nat)
    requires IsRun(states, events, basePort) && n <= |events| && d in states[n].sessions && states[n].sessions[d].hasHealthTimer
    requires LastLaunch(events, l, n, d)
    ensures states[n].sessions[d].isReady <==> WasHealthy(events, l, n, d, states[n].sessions[d].id, states[n].sessions[d].generation)
  {
    hide Step, CanHappen, WasHealthy;
    var l0 := PolledSince(states, events, basePort, n, d, states[n].sessions[d].id, states[n].sessions[d].generation);
  }

  /** Why event e restarts a polled session of d that was last launched by event l: one of its processes is gone; it is ready and
      this is the third failing answer since the last healthy one; it was never healthy and this failing answer comes ten
      minutes after the launch or later. */
  ghost predicate Restarts(events: seq<Event>, l: nat, n: nat, d: DeviceId, id: nat, generation: nat)
    requires l < n < |events| && Launches(events[l], d)
  {
    var e := events[n];
    || (e.ChildEvent? && e.device == d && e.id == id && e.generation == generation)
    || (Answers(e, d, id, generation, false) &&
        if WasHealthy(events, l, n, d, id, generation) then FailsSince(events, l, n, d, id, generation) + 1 == 3
        else e.now - events[l].now >= 600_000)
  }

  /** In every run: a session whose health is polled restarts at an event exactly for these reasons; unless it is stopped, it is
      polled on otherwise. Each restart counts one more attempt, a healthy answer counts them anew. */
  lemma RestartsExactlyWhen(states: seq<SupervisorState>, events: seq<Event>, basePort: nat, n: nat, d: DeviceId, l: nat)
    requires IsRun(states, events, basePort) && n < |events| && d in states[n].sessions && states[n].sessions[d].hasHealthTimer
    requires LastLaunch(events, l, n, d)
    ensures events[n] != Stops(d) ==> d in states[n + 1].sessions
    ensures events[n] != Stops(d) ==>
              var x, y := states[n].sessions[d], states[n + 1].sessions[d];
              && y.id == x.id && y.generation == x.generation && y.hasHealthTimer == !y.hasRestartTimer
              && (y.hasRestartTimer <==> Restarts(events, l, n, d, x.id, x.generation))
              && y.restartAttempt == (if y.hasRestartTimer then x.restartAttempt + 1
                                      else if Answers(events[n], d, x.id, x.generation, true) then 0 else x.restartAttempt)
  {
    hide Step, CanHappen, WasHealthy, SupervisorInv;
    var x := states[n].sessions[d];
    var l0 := PolledSince(states, events, basePort, n, d, x.id, x.generation);
    assert l0 == l;
    RunKeepsInv(states, events, basePort, n);
    RunStep(states, events, basePort, n);
    PolledMayRestart(states[n], events[n], d);
  }

  lemma RunStep(states: seq<SupervisorState>, events: seq<Event>, basePort: nat, n: nat)
    requires IsRun(states, events, basePort) && n < |events|
    ensures CanHappen(states[n], events[n]) && states[n + 1] == Step(states[n], events[n])
  {
  }

  lemma PolledMayRestart(s: SupervisorState, e: Event, d: DeviceId)
    requires SupervisorInv(s) && CanHappen(s, e) && d in s.sessions && s.sessions[d].hasHealthTimer
    requires s.sessions[d].isReady ==> s.sessions[d].healthFailCount < 3
    ensures e != Stops(d) ==> d in Step(s, e).sessions
    ensures e != Stops(d) ==>
              var x, y := s.sessions[d], Step(s, e).sessions[d];
              && y.id == x.id && y.generation == x.generation && y.hasHealthTimer == !y.hasRestartTimer
              && (y.hasRestartTimer <==>
                    || (e.ChildEvent? && e.device == d && e.id == x.id && e.generation == x.generation)
                    || (Answers(e, d, x.id, x.generation, false) &&
                        if x.isReady then x.healthFailCount + 1 == 3 else e.now - x.launchedAt >= 600_000))
              && y.restartAttempt == (if y.hasRestartTimer then x.restartAttempt + 1
                                      else if Answers(e, d, x.id, x.generation, true) then 0 else x.restartAttempt)
  {
    hide PortsInv, ChildrenInv;
  }
}
