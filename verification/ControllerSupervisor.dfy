/** Two-process controller sessions of iOS devices (packages/agent/src/controller-supervisor.ts). */
module ControllerSupervisor {
  import opened Common
  import opened PortPool
  import opened Processes

  const HEALTH_FAIL_THRESHOLD := 3
  const READY_DEADLINE_MS := 600_000

  /** `id` tells a session from an earlier one of the same device; `hasHealthTimer` and `hasRestartTimer` say which
      of the two timers is armed. A session leaves the map exactly when its `isStopping` flag is set. */
  datatype Session = Session(
    id: nat,
    port: nat,
    runner: Option<Process>,
    proxy: Option<Process>,
    isReady: bool,
    healthFailCount: nat,
    restartAttempt: nat,
    hasHealthTimer: bool,
    hasRestartTimer: bool,
    generation: nat,
    launchedAt: Time)

  /** How the two spawns of a launch go: either may throw. */
  datatype Fate = RunnerThrows | ProxyThrows | BothRun

  datatype SupervisorState = SupervisorState(
    sessions: map<DeviceId, Session>,
    pool: Pool,
    terminating: seq<Process>,
    exited: set<Process>,
    nextProcess: nat,
    nextSession: nat)

  function NewSupervisor(basePort: nat): SupervisorState {
    SupervisorState(map[], Pool(basePort, 0, [], []), [], {}, 0, 0)
  }

  function SlotsOf(x: Session): seq<Process> {
    (if x.runner.Some? then [x.runner.value] else []) + (if x.proxy.Some? then [x.proxy.value] else [])
  }

  /** Clears the health timer and sends the session's processes to the list of terminating ones. */
  function Teardown(s: SupervisorState, d: DeviceId): SupervisorState
    requires d in s.sessions
  {
    s.(terminating := s.terminating + SlotsOf(s.sessions[d]),
       sessions := s.sessions[d := s.sessions[d].(hasHealthTimer := false, isReady := false, runner := None, proxy := None)])
  }

  function ScheduleRestart(s: SupervisorState, d: DeviceId): SupervisorState
    requires d in s.sessions
  {
    if s.sessions[d].hasRestartTimer then s
    else
      var t := Teardown(s, d);
      t.(sessions := t.sessions[d := t.sessions[d].(restartAttempt := t.sessions[d].restartAttempt + 1, hasRestartTimer := true)])
  }

  function Launch(s: SupervisorState, d: DeviceId, fate: Fate, now: Time): SupervisorState
    requires d in s.sessions
  {
    var x := s.sessions[d].(isReady := false, healthFailCount := 0, generation := s.sessions[d].generation + 1, launchedAt := now);
    match fate
    case RunnerThrows => ScheduleRestart(s.(sessions := s.sessions[d := x]), d)
    case ProxyThrows =>
      ScheduleRestart(s.(sessions := s.sessions[d := x.(runner := Some(s.nextProcess))], nextProcess := s.nextProcess + 1), d)
    case BothRun =>
      s.(sessions := s.sessions[d := x.(runner := Some(s.nextProcess), proxy := Some(s.nextProcess + 1), hasHealthTimer := true)],
         nextProcess := s.nextProcess + 2)
  }

  function StartSession(s: SupervisorState, d: DeviceId, fate: Fate, now: Time): SupervisorState {
    var x := Session(s.nextSession, NextPort(s.pool), None, None, false, 0, 0, false, false, 0, now);
    Launch(s.(sessions := s.sessions[d := x], pool := Allocate(s.pool), nextSession := s.nextSession + 1), d, fate, now)
  }

  function StopSession(s: SupervisorState, d: DeviceId): SupervisorState {
    if d !in s.sessions then s
    else
      var t := Teardown(s, d);
      t.(sessions := t.sessions - {d}, pool := Cool(t.pool, s.sessions[d].port))
  }

  /** Callbacks keep the session object and generation they were created for. */
  predicate IsCurrent(s: SupervisorState, d: DeviceId, id: nat, generation: nat) {
    d in s.sessions && s.sessions[d].id == id && s.sessions[d].generation == generation
  }

  /** An `exit` or `error` event of child p, started for generation `generation` of session `id`. */
  function ChildFails(s: SupervisorState, p: Process, d: DeviceId, id: nat, generation: nat): SupervisorState {
    var t := s.(exited := s.exited + {p});
    if IsCurrent(s, d, id, generation) then ScheduleRestart(t, d) else t
  }

  /** The answer to a health check, possibly late: dropped if the generation is over or its processes are gone. */
  function HealthAnswer(s: SupervisorState, d: DeviceId, id: nat, generation: nat, isHealthy: bool, now: Time): SupervisorState {
    if !IsCurrent(s, d, id, generation) || s.sessions[d].runner.None? then s
    else
      var x := s.sessions[d];
      if isHealthy then s.(sessions := s.sessions[d := x.(isReady := true, healthFailCount := 0, restartAttempt := 0)])
      else
        var t := s.(sessions := s.sessions[d := x.(healthFailCount := x.healthFailCount + 1)]);
        if !x.isReady then (if now - x.launchedAt < READY_DEADLINE_MS then t else ScheduleRestart(t, d))
        else if x.healthFailCount + 1 < HEALTH_FAIL_THRESHOLD then t
        else ScheduleRestart(t, d)
  }

  function RestartFires(s: SupervisorState, d: DeviceId, fate: Fate, now: Time): SupervisorState
    requires d in s.sessions
  {
    Launch(s.(sessions := s.sessions[d := s.sessions[d].(hasRestartTimer := false)]), d, fate, now)
  }

  /** The filtering done while waiting for termination. */
  function ForgetExited(s: SupervisorState): SupervisorState {
    s.(terminating := Unexited(s.terminating, s.exited))
  }

  function HeldPorts(sessions: map<DeviceId, Session>): set<nat> {
    set d | d in sessions :: sessions[d].port
  }

  /** Exactly one timer is armed; the health timer goes with both processes, the restart timer with none; a ready
      session has both. */
  ghost predicate SessionInv(x: Session) {
    && x.hasHealthTimer != x.hasRestartTimer
    && x.runner.Some? == x.hasHealthTimer && x.proxy.Some? == x.hasHealthTimer
    && (x.isReady ==> x.hasHealthTimer)
  }

  /** Process p has exited, is being terminated, or sits in a slot of a live session. */
  ghost predicate Tracked(s: SupervisorState, p: Process) {
    p in s.exited || p in s.terminating || exists d :: d in s.sessions && p in SlotsOf(s.sessions[d])
  }

  ghost predicate PortsInv(s: SupervisorState) {
    && PoolInv(s.pool, HeldPorts(s.sessions))
    && (forall d, e :: d in s.sessions && e in s.sessions && d != e ==> s.sessions[d].port != s.sessions[e].port)
  }

  ghost predicate ChildrenInv(s: SupervisorState) {
    forall p: Process :: p < s.nextProcess ==> Tracked(s, p)
  }

  ghost predicate SupervisorInv(s: SupervisorState) {
    PortsInv(s) && ChildrenInv(s) && forall d :: d in s.sessions ==> SessionInv(s.sessions[d])
  }

  /** From s to t only session d changed, and its processes stayed in its slots or moved to `terminating`. */
  lemma ChildrenFollow(s: SupervisorState, t: SupervisorState, d: DeviceId)
    requires ChildrenInv(s) && s.exited <= t.exited
    requires forall p :: p in s.terminating ==> p in t.terminating
    requires forall e :: e in s.sessions && e != d ==> e in t.sessions && t.sessions[e] == s.sessions[e]
    requires d in s.sessions ==>
               forall p :: p in SlotsOf(s.sessions[d]) ==> p in t.terminating || (d in t.sessions && p in SlotsOf(t.sessions[d]))
    requires forall p: Process :: s.nextProcess <= p < t.nextProcess ==> Tracked(t, p)
    ensures ChildrenInv(t)
  {
    forall p: Process | p < t.nextProcess ensures Tracked(t, p) {
      if p < s.nextProcess {
        assert Tracked(s, p);
        if p !in s.exited && p !in s.terminating {
          var e :| e in s.sessions && p in SlotsOf(s.sessions[e]);
          assert e != d ==> t.sessions[e] == s.sessions[e];
        }
      }
    }
  }

  /** Sessions other than d are as they should be. */
  ghost predicate OthersInv(s: SupervisorState, d: DeviceId) {
    forall e :: e in s.sessions && e != d ==> SessionInv(s.sessions[e])
  }

  lemma ScheduleRestartKeepsInv(s: SupervisorState, d: DeviceId)
    requires PortsInv(s) && ChildrenInv(s) && d in s.sessions && OthersInv(s, d)
    requires s.sessions[d].hasRestartTimer ==> SessionInv(s.sessions[d])
    ensures SupervisorInv(ScheduleRestart(s, d))
  {
    var t := ScheduleRestart(s, d);
    ChildrenFollow(s, t, d);
    assert HeldPorts(t.sessions) == HeldPorts(s.sessions);
  }

  lemma LaunchKeepsInv(s: SupervisorState, d: DeviceId, fate: Fate, now: Time)
    requires PortsInv(s) && ChildrenInv(s) && d in s.sessions && OthersInv(s, d)
    requires var x := s.sessions[d]; x.runner.None? && x.proxy.None? && !x.hasHealthTimer && !x.hasRestartTimer
    ensures SupervisorInv(Launch(s, d, fate, now))
  {
    var x := s.sessions[d].(isReady := false, healthFailCount := 0, generation := s.sessions[d].generation + 1, launchedAt := now);
    match fate
    case RunnerThrows =>
      var t := s.(sessions := s.sessions[d := x]);
      SameSlots(s, t, d);
      ScheduleRestartKeepsInv(t, d);
    case ProxyThrows =>
      var t := s.(sessions := s.sessions[d := x.(runner := Some(s.nextProcess))], nextProcess := s.nextProcess + 1);
      assert s.nextProcess in SlotsOf(t.sessions[d]);
      SameSlots(s, t, d);
      ScheduleRestartKeepsInv(t, d);
    case BothRun =>
      var t := Launch(s, d, fate, now);
      assert SlotsOf(t.sessions[d]) == [s.nextProcess, s.nextProcess + 1];
      assert s.nextProcess in SlotsOf(t.sessions[d]) && s.nextProcess + 1 in SlotsOf(t.sessions[d]);
      SameSlots(s, t, d);
  }

  lemma HeldPortsAfter(a: map<DeviceId, Session>, d: DeviceId, x: Session)
    requires forall e, f :: e in a && f in a && e != f ==> a[e].port != a[f].port
    ensures d in a ==> HeldPorts(a - {d}) == HeldPorts(a) - {a[d].port}
    ensures d in a && x.port == a[d].port ==> HeldPorts(a[d := x]) == HeldPorts(a)
    ensures d !in a ==> HeldPorts(a[d := x]) == HeldPorts(a) + {x.port}
  {
    var b, c := a[d := x], a - {d};
    forall p | p in HeldPorts(a) ensures (p in HeldPorts(b) || (d in a && p == a[d].port)) && (p in HeldPorts(c) || (d in a && p == a[d].port)) {
      var e :| e in a && a[e].port == p;
      if e != d { assert b[e].port == p && c[e].port == p; }
    }
    assert b[d].port in HeldPorts(b);
    assert d in a ==> a[d].port in HeldPorts(a);
  }

  /** A change of session d that keeps its port and loses no process. */
  lemma SameSlots(s: SupervisorState, t: SupervisorState, d: DeviceId)
    requires PortsInv(s) && ChildrenInv(s) && d in s.sessions
    requires d in t.sessions && t == s.(sessions := s.sessions[d := t.sessions[d]], nextProcess := t.nextProcess, exited := t.exited)
    requires t.sessions[d].port == s.sessions[d].port && s.exited <= t.exited
    requires forall p :: p in SlotsOf(s.sessions[d]) ==> p in SlotsOf(t.sessions[d])
    requires forall p: Process :: s.nextProcess <= p < t.nextProcess ==> p in SlotsOf(t.sessions[d])
    ensures PortsInv(t) && ChildrenInv(t)
  {
    HeldPortsAfter(s.sessions, d, t.sessions[d]);
    forall p: Process | s.nextProcess <= p < t.nextProcess ensures Tracked(t, p) {}
    ChildrenFollow(s, t, d);
  }

  lemma StartKeepsInv(s: SupervisorState, d: DeviceId, fate: Fate, now: Time)
    requires SupervisorInv(s) && d !in s.sessions
    ensures SupervisorInv(StartSession(s, d, fate, now))
  {
    hide PoolInv, Launch;
    var x := Session(s.nextSession, NextPort(s.pool), None, None, false, 0, 0, false, false, 0, now);
    var t := s.(sessions := s.sessions[d := x], pool := Allocate(s.pool), nextSession := s.nextSession + 1);
    AllocateKeepsInv(s.pool, HeldPorts(s.sessions));
    HeldPortsAfter(s.sessions, d, x);
    ChildrenFollow(s, t, d);
    LaunchKeepsInv(t, d, fate, now);
  }

  lemma StopKeepsInv(s: SupervisorState, d: DeviceId)
    requires SupervisorInv(s)
    ensures SupervisorInv(StopSession(s, d))
  {
    if d in s.sessions {
      var t := StopSession(s, d);
      CoolKeepsInv(s.pool, HeldPorts(s.sessions), s.sessions[d].port);
      HeldPortsAfter(s.sessions, d, s.sessions[d]);
      assert t.sessions == s.sessions - {d};
      ChildrenFollow(s, t, d);
    }
  }

  lemma ChildFailsKeepsInv(s: SupervisorState, p: Process, d: DeviceId, id: nat, generation: nat)
    requires SupervisorInv(s)
    ensures SupervisorInv(ChildFails(s, p, d, id, generation))
  {
    var t := s.(exited := s.exited + {p});
    ChildrenFollow(s, t, d);
    if d in s.sessions {
      ScheduleRestartKeepsInv(t, d);
    }
  }

  lemma HealthAnswerKeepsInv(s: SupervisorState, d: DeviceId, id: nat, generation: nat, isHealthy: bool, now: Time)
    requires SupervisorInv(s)
    ensures SupervisorInv(HealthAnswer(s, d, id, generation, isHealthy, now))
  {
    hide PoolInv;
    if IsCurrent(s, d, id, generation) && s.sessions[d].runner.Some? {
      var x := s.sessions[d];
      SameSlots(s, s.(sessions := s.sessions[d := x.(isReady := true, healthFailCount := 0, restartAttempt := 0)]), d);
      var t := s.(sessions := s.sessions[d := x.(healthFailCount := x.healthFailCount + 1)]);
      SameSlots(s, t, d);
      ScheduleRestartKeepsInv(t, d);
    }
  }

  lemma RestartFiresKeepsInv(s: SupervisorState, d: DeviceId, fate: Fate, now: Time)
    requires SupervisorInv(s) && d in s.sessions && s.sessions[d].hasRestartTimer
    ensures SupervisorInv(RestartFires(s, d, fate, now))
  {
    var t := s.(sessions := s.sessions[d := s.sessions[d].(hasRestartTimer := false)]);
    assert SlotsOf(s.sessions[d]) == [];
    SameSlots(s, t, d);
    LaunchKeepsInv(t, d, fate, now);
  }

  lemma ForgetExitedKeepsInv(s: SupervisorState)
    requires SupervisorInv(s)
    ensures SupervisorInv(ForgetExited(s))
  {
    UnexitedIs(s.terminating, s.exited);
    var t := ForgetExited(s);
    forall p: Process | p < t.nextProcess ensures Tracked(t, p) {
      assert Tracked(s, p);
    }
  }

  /** Everything that can happen to the supervisor; `syncDevices` is a series of starts and stops. */
  datatype Event =
    | Starts(device: DeviceId, fate: Fate, now: Time)
    | Stops(device: DeviceId)
    | ChildEvent(process: Process, device: DeviceId, id: nat, generation: nat)
    | Health(device: DeviceId, id: nat, generation: nat, isHealthy: bool, now: Time)
    | RestartTimer(device: DeviceId, fate: Fate, now: Time)
    | CooldownTimer(index: nat)
    | Waits

  predicate CanHappen(s: SupervisorState, e: Event) {
    match e
    case Starts(d, _, _) => d !in s.sessions
    case RestartTimer(d, _, _) => d in s.sessions && s.sessions[d].hasRestartTimer
    case CooldownTimer(i) => i < |s.pool.cooling|
    case _ => true
  }

  function Step(s: SupervisorState, e: Event): SupervisorState
    requires CanHappen(s, e)
  {
    match e
    case Starts(d, fate, now) => StartSession(s, d, fate, now)
    case Stops(d) => StopSession(s, d)
    case ChildEvent(p, d, id, generation) => ChildFails(s, p, d, id, generation)
    case Health(d, id, generation, isHealthy, now) => HealthAnswer(s, d, id, generation, isHealthy, now)
    case RestartTimer(d, fate, now) => RestartFires(s, d, fate, now)
    case CooldownTimer(i) => s.(pool := Recycle(s.pool, i))
    case Waits => ForgetExited(s)
  }

  lemma StepKeepsInv(s: SupervisorState, e: Event)
    requires SupervisorInv(s) && CanHappen(s, e)
    ensures SupervisorInv(Step(s, e))
  {
    match e
    case Starts(d, fate, now) => StartKeepsInv(s, d, fate, now);
    case Stops(d) => StopKeepsInv(s, d);
    case ChildEvent(p, d, id, generation) => ChildFailsKeepsInv(s, p, d, id, generation);
    case Health(d, id, generation, isHealthy, now) => HealthAnswerKeepsInv(s, d, id, generation, isHealthy, now);
    case RestartTimer(d, fate, now) => RestartFiresKeepsInv(s, d, fate, now);
    case CooldownTimer(i) =>
      RecycleKeepsInv(s.pool, HeldPorts(s.sessions), i);
      ChildrenFollow(s, Step(s, e), DeviceId(""));
    case Waits => ForgetExitedKeepsInv(s);
  }

  ghost predicate IsRun(states: seq<SupervisorState>, events: seq<Event>, basePort: nat) {
    && |states| == |events| + 1 && states[0] == NewSupervisor(basePort)
    && forall i :: 0 <= i < |events| ==> CanHappen(states[i], events[i]) && states[i + 1] == Step(states[i], events[i])
  }

  /** In every state of every run: ports are conserved, no spawned process is lost, every session has one timer armed. */
  lemma {:induction false} RunKeepsInv(states: seq<SupervisorState>, events: seq<Event>, basePort: nat, n: nat)
    requires IsRun(states, events, basePort) && n < |states|
    ensures SupervisorInv(states[n]) && states[n].pool.basePort == basePort
  {
    if n > 0 {
      RunKeepsInv(states, events, basePort, n - 1);
      StepKeepsInv(states[n - 1], events[n - 1]);
    }
  }

  /** A session is ready only by a healthy answer of its own generation. */
  lemma StepReady(s: SupervisorState, e: Event, d: DeviceId)
    requires SupervisorInv(s) && CanHappen(s, e) && d in Step(s, e).sessions && Step(s, e).sessions[d].isReady
    ensures var x := Step(s, e).sessions[d];
            || (d in s.sessions && s.sessions[d].isReady && s.sessions[d].id == x.id && s.sessions[d].generation == x.generation)
            || (e.Health? && e.isHealthy && e.device == d && e.id == x.id && e.generation == x.generation)
  {
    hide SupervisorInv;
  }

  /** In every run: a ready session has had a healthy answer since its present processes were launched; answers of earlier
      launches, however late, never make it ready. */
  lemma {:induction false} ReadyMeansHealthy(states: seq<SupervisorState>, events: seq<Event>, basePort: nat, n: nat, d: DeviceId)
    requires IsRun(states, events, basePort) && n < |states| && d in states[n].sessions && states[n].sessions[d].isReady
    ensures exists i :: 0 <= i < n && events[i].Health? && events[i].isHealthy && events[i].device == d
                        && events[i].id == states[n].sessions[d].id && events[i].generation == states[n].sessions[d].generation
  {
    hide Step, SupervisorInv, CanHappen;
    if n > 0 {
      RunKeepsInv(states, events, basePort, n - 1);
      StepReady(states[n - 1], events[n - 1], d);
      var e, x := events[n - 1], states[n].sessions[d];
      if !(e.Health? && e.isHealthy && e.device == d && e.id == x.id && e.generation == x.generation) {
        ReadyMeansHealthy(states, events, basePort, n - 1, d);
      }
    }
  }

  class Supervisor {
    var sessions: map<DeviceId, Session>
    var pool: Pool
    var terminating: seq<Process>
    var exited: set<Process>
    var nextProcess: nat
    var nextSession: nat

    ghost function State(): SupervisorState
      reads this
    {
      SupervisorState(sessions, pool, terminating, exited, nextProcess, nextSession)
    }

    ghost predicate Valid()
      reads this
    {
      SupervisorInv(State())
    }

    constructor (basePort: nat)
      ensures Valid() && State() == NewSupervisor(basePort)
    {
      sessions, pool, terminating, exited := map[], Pool(basePort, 0, [], []), [], {};
      nextProcess, nextSession := 0, 0;
    }

    /** After a sync exactly the discovered devices have sessions, and those that stay were not touched. */
    method SyncDevices(ids: set<DeviceId>, now: Time)
      requires Valid()
      modifies this
      ensures Valid() && sessions.Keys == ids
      ensures forall d :: d in ids && d in old(sessions) ==> sessions[d] == old(sessions)[d]
    {
      StartMissing(ids, now);
      StopGone(sessions.Keys - ids);
    }

    method StartMissing(ids: set<DeviceId>, now: Time)
      requires Valid()
      modifies this
      ensures Valid() && sessions.Keys == old(sessions).Keys + ids
      ensures forall d :: d in old(sessions) ==> sessions[d] == old(sessions)[d]
    {
      var todo := ids;
      while todo != {}
        invariant Valid() && todo <= ids
        invariant sessions.Keys == old(sessions).Keys + (ids - todo)
        invariant forall d :: d in old(sessions) ==> sessions[d] == old(sessions)[d]
      {
        var d :| d in todo;
        todo := todo - {d};
        if d !in sessions {
          var fate: Fate := *;
          Start(d, fate, now);
        }
      }
    }

    method StopGone(ids: set<DeviceId>)
      requires Valid()
      modifies this
      ensures Valid() && sessions.Keys == old(sessions).Keys - ids
      ensures forall d :: d in sessions ==> sessions[d] == old(sessions)[d]
    {
      var gone := ids;
      while gone != {}
        invariant Valid() && gone <= ids && sessions.Keys == old(sessions).Keys - (ids - gone)
        invariant forall d :: d in sessions ==> sessions[d] == old(sessions)[d]
      {
        var d :| d in gone;
        gone := gone - {d};
        Stop(d);
      }
    }

    method AllocatePort() returns (port: nat)
      modifies this`pool
      ensures port == NextPort(old(pool)) && pool == Allocate(old(pool))
    {
      if pool.freePorts != [] {
        port := pool.freePorts[0];
        pool := pool.(freePorts := pool.freePorts[1..]);
        return;
      }
      port := pool.basePort + pool.nextPortOffset;
      pool := pool.(nextPortOffset := pool.nextPortOffset + 1);
    }

    method Start(d: DeviceId, fate: Fate, now: Time)
      requires Valid() && d !in sessions
      modifies this
      ensures Valid() && State() == StartSession(old(State()), d, fate, now)
      ensures sessions.Keys == old(sessions).Keys + {d} && forall e :: e in old(sessions) ==> sessions[e] == old(sessions)[e]
    {
      hide SupervisorInv, Launch;
      StartKeepsInv(State(), d, fate, now);
      var port := AllocatePort();
      sessions := sessions[d := Session(nextSession, port, None, None, false, 0, 0, false, false, 0, now)];
      nextSession := nextSession + 1;
      LaunchProcesses(d, fate, now);
    }

    method LaunchProcesses(d: DeviceId, fate: Fate, now: Time)
      requires d in sessions
      modifies this
      ensures State() == Launch(old(State()), d, fate, now)
      ensures sessions.Keys == old(sessions).Keys && forall e :: e in sessions && e != d ==> sessions[e] == old(sessions)[e]
    {
      hide ScheduleRestart;
      var x := sessions[d].(isReady := false, healthFailCount := 0, generation := sessions[d].generation + 1, launchedAt := now);
      sessions := sessions[d := x];
      if fate == RunnerThrows {
        Restart(d);
        return;
      }
      sessions := sessions[d := x.(runner := Some(nextProcess))];
      assert sessions == old(sessions)[d := x.(runner := Some(nextProcess))];
      nextProcess := nextProcess + 1;
      if fate == ProxyThrows {
        Restart(d);
        return;
      }
      sessions := sessions[d := sessions[d].(proxy := Some(nextProcess), hasHealthTimer := true)];
      assert sessions == old(sessions)[d := sessions[d]];
      nextProcess := nextProcess + 1;
    }

    method TeardownProcesses(d: DeviceId)
      requires d in sessions
      modifies this`sessions, this`terminating
      ensures State() == Teardown(old(State()), d)
    {
      var x := sessions[d];
      if x.runner.Some? { terminating := terminating + [x.runner.value]; }
      if x.proxy.Some? { terminating := terminating + [x.proxy.value]; }
      sessions := sessions[d := x.(hasHealthTimer := false, isReady := false, runner := None, proxy := None)];
    }

    method Restart(d: DeviceId)
      requires d in sessions
      modifies this`sessions, this`terminating
      ensures State() == ScheduleRestart(old(State()), d)
      ensures sessions.Keys == old(sessions).Keys && forall e :: e in sessions && e != d ==> sessions[e] == old(sessions)[e]
    {
      if sessions[d].hasRestartTimer { return; }
      TeardownProcesses(d);
      sessions := sessions[d := sessions[d].(restartAttempt := sessions[d].restartAttempt + 1, hasRestartTimer := true)];
    }

    method Stop(d: DeviceId)
      requires Valid()
      modifies this
      ensures Valid() && State() == StopSession(old(State()), d)
    {
      StopKeepsInv(State(), d);
      if d !in sessions { return; }
      var port := sessions[d].port;
      TeardownProcesses(d);
      sessions := sessions - {d};
      pool := pool.(cooling := pool.cooling + [port]);
    }

    method OnChildGone(p: Process, d: DeviceId, id: nat, generation: nat)
      requires Valid()
      modifies this
      ensures Valid() && State() == ChildFails(old(State()), p, d, id, generation)
    {
      ChildFailsKeepsInv(State(), p, d, id, generation);
      exited := exited + {p};
      if d !in sessions || sessions[d].id != id || sessions[d].generation != generation { return; }
      Restart(d);
    }

    method OnHealthAnswer(d: DeviceId, id: nat, generation: nat, isHealthy: bool, now: Time)
      requires Valid()
      modifies this
      ensures Valid() && State() == HealthAnswer(old(State()), d, id, generation, isHealthy, now)
    {
      HealthAnswerKeepsInv(State(), d, id, generation, isHealthy, now);
      if d !in sessions || sessions[d].id != id || sessions[d].generation != generation || sessions[d].runner.None? { return; }
      var x := sessions[d];
      if isHealthy {
        sessions := sessions[d := x.(isReady := true, healthFailCount := 0, restartAttempt := 0)];
        return;
      }
      sessions := sessions[d := x.(healthFailCount := x.healthFailCount + 1)];
      if !x.isReady {
        if now - x.launchedAt < READY_DEADLINE_MS { return; }
        Restart(d);
        return;
      }
      if sessions[d].healthFailCount < HEALTH_FAIL_THRESHOLD { return; }
      Restart(d);
    }

    method OnRestartTimer(d: DeviceId, fate: Fate, now: Time)
      requires Valid() && d in sessions && sessions[d].hasRestartTimer
      modifies this
      ensures Valid() && State() == RestartFires(old(State()), d, fate, now)
    {
      RestartFiresKeepsInv(State(), d, fate, now);
      sessions := sessions[d := sessions[d].(hasRestartTimer := false)];
      LaunchProcesses(d, fate, now);
    }

    /** One round of waiting for termination. */
    method FilterTerminating()
      requires Valid()
      modifies this`terminating
      ensures Valid() && State() == ForgetExited(old(State()))
    {
      ForgetExitedKeepsInv(State());
      terminating := Filter(terminating, exited);
    }
  }
}
