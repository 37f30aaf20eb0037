/** When an Android runner session is ready and when it restarts, told from the events since its last launch. */
module AndroidHealth {
  import opened Common
  import opened Processes
  import opened AndroidSupervisor

  /** A launch of d begins: at its start, or when its restart timer fires. */
  predicate Launches(e: Event, d: DeviceId) {
    (e.Starts? || e.RestartTimer?) && e.device == d
  }

  ghost predicate LastLaunch(events: seq<Event>, l: nat, n: nat, d: DeviceId)
    requires n <= |events|
  {
    l < n && Launches(events[l], d) && forall j :: l < j < n ==> !Launches(events[j], d)
  }

  /** The answer to a health check that was sent for key k. */
  predicate Answers(e: Event, k: Key, isHealthy: bool) {
    e.PollAnswer? && e.key == k && e.isHealthy == isHealthy
  }

  ghost predicate WasHealthy(events: seq<Event>, l: nat, n: nat, k: Key)
    requires n <= |events|
  {
    exists i :: l < i < n && Answers(events[i], k, true)
  }

  /** The failing answers after the last healthy one, which came after event l. */
  ghost function FailsSince(events: seq<Event>, l: nat, n: nat, k: Key): nat
    requires n <= |events|
  {
    if n <= l + 1 || Answers(events[n - 1], k, true) then 0
    else
      FailsSince(events, l, n - 1, k)
      + if Answers(events[n - 1], k, false) && WasHealthy(events, l, n - 1, k) then 1 else 0
  }

  /** Session k of its device is there and does not wait for a restart: it is being launched or its health is polled. */
  ghost predicate IsUp(s: SupervisorState, k: Key) {
    IsCurrent(s, k) && !s.sessions[k.device].hasRestartTimer
  }

  /** What an event other than a launch does to a session that is up afterwards. */
  lemma UpStep(s: SupervisorState, e: Event, tuning: Tuning, k: Key)
    requires SupervisorInv(s) && CanHappen(s, e) && IsUp(Step(s, e, tuning), k) && !Launches(e, k.device)
    ensures IsUp(s, k)
    ensures var x, y := s.sessions[k.device], Step(s, e, tuning).sessions[k.device];
            && y.launchedAt == x.launchedAt
            && y.isReady == (x.isReady || Answers(e, k, true))
            && y.healthFailCount == (if Answers(e, k, true) then 0
                                     else if Answers(e, k, false) && x.isReady then x.healthFailCount + 1 else x.healthFailCount)
            && (y.isReady && y.healthFailCount >= tuning.healthFailThreshold > 0 ==> x.isReady && x.healthFailCount >= tuning.healthFailThreshold)
  {
    hide PortsInv, ChildrenInv;
  }

  /** A session that waits for its restart has no failing answers counted. */
  lemma StepKeepsCount(s: SupervisorState, e: Event, tuning: Tuning, d: DeviceId)
    requires SupervisorInv(s) && CanHappen(s, e) && d in Step(s, e, tuning).sessions && Step(s, e, tuning).sessions[d].hasRestartTimer
    requires d in s.sessions && s.sessions[d].hasRestartTimer ==> s.sessions[d].healthFailCount == 0
    ensures Step(s, e, tuning).sessions[d].healthFailCount == 0
  {
    hide PortsInv, ChildrenInv;
  }

  lemma {:induction false} WaitingCountsNothing(states: seq<SupervisorState>, events: seq<Event>, basePort: nat, tuning: Tuning, n: nat, d: DeviceId)
    requires IsRun(states, events, basePort, tuning) && n <= |events| && d in states[n].sessions && states[n].sessions[d].hasRestartTimer
    ensures states[n].sessions[d].healthFailCount == 0
  {
    hide Step, CanHappen, SupervisorInv;
    if n > 0 {
      RunKeepsInv(states, events, basePort, tuning, n - 1);
      if d in states[n - 1].sessions && states[n - 1].sessions[d].hasRestartTimer {
        WaitingCountsNothing(states, events, basePort, tuning, n - 1, d);
      }
      StepKeepsCount(states[n - 1], events[n - 1], tuning, d);
    }
  }

  /** What a launch leaves: a session being launched. */
  lemma LaunchStep(s: SupervisorState, e: Event, tuning: Tuning, d: DeviceId)
    requires SupervisorInv(s) && CanHappen(s, e) && Launches(e, d)
    requires d in s.sessions ==> s.sessions[d].hasRestartTimer && s.sessions[d].healthFailCount == 0
    ensures var t := Step(s, e, tuning);
            && d in t.sessions && !t.sessions[d].isReady && t.sessions[d].healthFailCount == 0 && t.sessions[d].launchedAt == e.now
            && !t.sessions[d].hasRestartTimer && !t.sessions[d].hasHealthTimer && KeyOf(d, t.sessions[d]) in t.launches
            && (if d in s.sessions then KeyOf(d, t.sessions[d]) == KeyOf(d, s.sessions[d])
                else KeyOf(d, t.sessions[d]) == Key(d, s.nextSession, 0))
            && t.sessions[d].restartAttempt == (if d in s.sessions then s.sessions[d].restartAttempt else 0)
  {
    hide PortsInv, ChildrenInv;
  }

  /** A launched session's columns are told by the answers since its launch. */
  lemma {:induction false} UpSince(states: seq<SupervisorState>, events: seq<Event>, basePort: nat, tuning: Tuning, n: nat, k: Key)
      returns (l: nat)
    requires IsRun(states, events, basePort, tuning) && n <= |events| && IsUp(states[n], k)
    ensures LastLaunch(events, l, n, k.device)
    ensures var x := states[n].sessions[k.device];
            && x.launchedAt == events[l].now
            && (x.isReady <==> WasHealthy(events, l, n, k))
            && x.healthFailCount == FailsSince(events, l, n, k)
            && (x.isReady && tuning.healthFailThreshold > 0 ==> x.healthFailCount < tuning.healthFailThreshold)
  {
    hide Step, CanHappen, SupervisorInv;
    assert n > 0;
    var s, e := states[n - 1], events[n - 1];
    RunKeepsInv(states, events, basePort, tuning, n - 1);
    if Launches(e, k.device) {
      LaunchFindsWaiting(s, e, k.device);
      if k.device in s.sessions { WaitingCountsNothing(states, events, basePort, tuning, n - 1, k.device); }
      LaunchStep(s, e, tuning, k.device);
      l := n - 1;
    } else {
      UpStep(s, e, tuning, k);
      l := UpSince(states, events, basePort, tuning, n - 1, k);
      HealthyUpTo(events, l, n, k);
    }
  }

  lemma LaunchFindsWaiting(s: SupervisorState, e: Event, d: DeviceId)
    requires CanHappen(s, e) && Launches(e, d)
    ensures d in s.sessions ==> s.sessions[d].hasRestartTimer
  {
  }

  lemma HealthyUpTo(events: seq<Event>, l: nat, n: nat, k: Key)
    requires l + 1 < n <= |events|
    ensures WasHealthy(events, l, n, k) <==> WasHealthy(events, l, n - 1, k) || Answers(events[n - 1], k, true)
  {
  }

  /** In every run: a session that does not wait for a restart is ready exactly if a healthy answer for its present generation came
      since its last launch. */
  lemma ReadyIff(states: seq<SupervisorState>, events: seq<Event>, basePort: nat, tuning: Tuning, n: nat, d: DeviceId, l: nat)
    requires IsRun(states, events, basePort, tuning) && n <= |events|
    requires d in states[n].sessions && !states[n].sessions[d].hasRestartTimer && LastLaunch(events, l, n, d)
    ensures states[n].sessions[d].isReady <==> WasHealthy(events, l, n, KeyOf(d, states[n].sessions[d]))
  {
    hide Step, CanHappen, WasHealthy;
    var l0 := UpSince(states, events, basePort, tuning, n, KeyOf(d, states[n].sessions[d]));
  }

  /** Why event n restarts session k, last launched by event l: its launch fails; its runner is gone; it is ready and this failing
      answer is the one that reaches the threshold since the last healthy one; it was never healthy and this failing answer
      comes after the deadline. A threshold of 0 counts as 1. */
  ghost predicate Restarts(s: SupervisorState, events: seq<Event>, l: nat, n: nat, tuning: Tuning, k: Key)
    requires l < n < |events| && Launches(events[l], k.device) && CanHappen(s, events[n])
  {
    var e := events[n];
    || (e.LaunchEnds? && e.key == k && !e.end.Spawns?)
    || (e.ChildEvent? && s.bornFor[e.process] == k)
    || (Answers(e, k, false) &&
        if WasHealthy(events, l, n, k) then FailsSince(events, l, n, k) + 1 >= tuning.healthFailThreshold
        else e.now - events[l].now > tuning.readyDeadlineMs)
  }

  /** In every run: a session restarts at an event exactly for these reasons, and with a new generation; unless it is stopped, it stays
      up otherwise, and is polled from the end of its launch on. Each restart counts one more attempt, a healthy answer counts
      them anew. */
  lemma RestartsExactlyWhen(states: seq<SupervisorState>, events: seq<Event>, basePort: nat, tuning: Tuning, n: nat, d: DeviceId, l: nat)
    requires IsRun(states, events, basePort, tuning) && n < |events|
    requires d in states[n].sessions && !states[n].sessions[d].hasRestartTimer && LastLaunch(events, l, n, d)
    ensures CanHappen(states[n], events[n]) && (events[n] != Stops(d) ==> d in states[n + 1].sessions)
    ensures events[n] != Stops(d) ==>
              var x, y := states[n].sessions[d], states[n + 1].sessions[d];
              && (y.hasRestartTimer <==> Restarts(states[n], events, l, n, tuning, KeyOf(d, x)))
              && y.id == x.id && y.generation == (if y.hasRestartTimer then x.generation + 1 else x.generation)
              && y.restartAttempt == (if y.hasRestartTimer then x.restartAttempt + 1
                                      else if Answers(events[n], KeyOf(d, x), true) then 0 else x.restartAttempt)
              && (y.hasHealthTimer <==> !y.hasRestartTimer && (x.hasHealthTimer || (events[n].LaunchEnds? && events[n].key == KeyOf(d, x))))
    ensures states[n].sessions[d].isReady && tuning.healthFailThreshold > 0 ==>
              FailsSince(events, l, n, KeyOf(d, states[n].sessions[d])) < tuning.healthFailThreshold
  {
    hide Step, WasHealthy, SupervisorInv;
    var x := states[n].sessions[d];
    var l0 := UpSince(states, events, basePort, tuning, n, KeyOf(d, x));
    assert l0 == l;
    RunKeepsInv(states, events, basePort, tuning, n);
    UpMayRestart(states[n], events[n], tuning, d);
  }

  lemma UpMayRestart(s: SupervisorState, e: Event, tuning: Tuning, d: DeviceId)
    requires SupervisorInv(s) && CanHappen(s, e) && d in s.sessions && !s.sessions[d].hasRestartTimer
    ensures e != Stops(d) ==> d in Step(s, e, tuning).sessions
    ensures e != Stops(d) ==>
              var x, y := s.sessions[d], Step(s, e, tuning).sessions[d];
              && (y.hasRestartTimer <==>
                    || (e.LaunchEnds? && e.key == KeyOf(d, x) && !e.end.Spawns?)
                    || (e.ChildEvent? && s.bornFor[e.process] == KeyOf(d, x))
                    || (Answers(e, KeyOf(d, x), false) &&
                        if x.isReady then x.healthFailCount + 1 >= tuning.healthFailThreshold
                        else e.now - x.launchedAt > tuning.readyDeadlineMs))
              && y.id == x.id && y.generation == (if y.hasRestartTimer then x.generation + 1 else x.generation)
              && y.restartAttempt == (if y.hasRestartTimer then x.restartAttempt + 1
                                      else if Answers(e, KeyOf(d, x), true) then 0 else x.restartAttempt)
              && (y.hasHealthTimer <==> !y.hasRestartTimer && (x.hasHealthTimer || (e.LaunchEnds? && e.key == KeyOf(d, x))))
  {
    hide PortsInv, ChildrenInv;
  }
}
