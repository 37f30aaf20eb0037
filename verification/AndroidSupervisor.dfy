/** Android runner sessions with their asynchronous launch (packages/agent/src/android-supervisor.ts). */
module AndroidSupervisor {
  import opened Common
  import opened PortPool
  import opened Processes

  /** What a callback closes over: the session object and the generation it was created for. */
  datatype Key = Key(device: DeviceId, id: nat, generation: nat)

  /** A session leaves the map exactly when its `isStopping` flag is set. */
  datatype Session = Session(
    id: nat,
    httpPort: nat,
    instrument: Option<Process>,
    isReady: bool,
    isInstalled: bool,
    healthFailCount: nat,
    restartAttempt: nat,
    hasHealthTimer: bool,
    hasRestartTimer: bool,
    generation: nat,
    launchedAt: Time)

  /** How an asynchronous launch ends: preparing the device failed, spawning threw, or the runner was spawned. */
  datatype LaunchEnd = PrepareFails | SpawnThrows | Spawns

  datatype Tuning = Tuning(healthFailThreshold: nat, readyDeadlineMs: int)

  /** `launches` are the launches in flight, `polled` the keys for which a health check was ever sent,
      `bornFor` says for which key each child was spawned. */
  datatype SupervisorState = SupervisorState(
    sessions: map<DeviceId, Session>,
    pool: Pool,
    terminating: seq<Process>,
    exited: set<Process>,
    launches: set<Key>,
    polled: set<Key>,
    bornFor: seq<Key>,
    nextSession: nat)

  function NewSupervisor(basePort: nat): SupervisorState {
    SupervisorState(map[], Pool(basePort, 0, [], []), [], {}, {}, {}, [], 0)
  }

  function KeyOf(d: DeviceId, x: Session): Key {
    Key(d, x.id, x.generation)
  }

  predicate IsCurrent(s: SupervisorState, k: Key) {
    k.device in s.sessions && KeyOf(k.device, s.sessions[k.device]) == k
  }

  /** Clears the health timer; an unexited process goes to the terminating ones. */
  function Teardown(s: SupervisorState, d: DeviceId): SupervisorState
    requires d in s.sessions
  {
    var x := s.sessions[d];
    s.(terminating := if x.instrument.Some? && x.instrument.value !in s.exited then s.terminating + [x.instrument.value] else s.terminating,
       sessions := s.sessions[d := x.(hasHealthTimer := false, instrument := None)])
  }

  function ScheduleRestart(s: SupervisorState, d: DeviceId): SupervisorState
    requires d in s.sessions
  {
    if s.sessions[d].hasRestartTimer then s
    else
      var t := Teardown(s, d);
      var x := t.sessions[d];
      t.(sessions := t.sessions[d := x.(generation := x.generation + 1, isReady := false, healthFailCount := 0,
                                        restartAttempt := x.restartAttempt + 1, hasRestartTimer := true)])
  }

  /** `launch` up to its first wait. */
  function BeginLaunch(s: SupervisorState, d: DeviceId, now: Time): SupervisorState
    requires d in s.sessions
  {
    s.(sessions := s.sessions[d := s.sessions[d].(launchedAt := now)], launches := s.launches + {KeyOf(d, s.sessions[d])})
  }

  function StartSession(s: SupervisorState, d: DeviceId, now: Time): SupervisorState {
    var x := Session(s.nextSession, NextPort(s.pool), None, false, false, 0, 0, false, false, 0, 0);
    BeginLaunch(s.(sessions := s.sessions[d := x], pool := Allocate(s.pool), nextSession := s.nextSession + 1), d, now)
  }

  function StopSession(s: SupervisorState, d: DeviceId): SupervisorState {
    if d !in s.sessions then s
    else
      var t := Teardown(s, d);
      t.(sessions := t.sessions - {d}, pool := Cool(t.pool, s.sessions[d].httpPort))
  }

  /** The launch in flight for `k` ends; a stale one spawns nothing. */
  function EndLaunch(s: SupervisorState, k: Key, end: LaunchEnd, installed: bool): SupervisorState {
    var t := s.(launches := s.launches - {k});
    if !IsCurrent(s, k) then t
    else
      var x := s.sessions[k.device].(isInstalled := s.sessions[k.device].isInstalled || installed);
      if !end.Spawns? then ScheduleRestart(t.(sessions := t.sessions[k.device := x]), k.device)
      else t.(sessions := t.sessions[k.device := x.(instrument := Some(|s.bornFor|), hasHealthTimer := true)], bornFor := s.bornFor + [k])
  }

  /** An `exit` or `error` event of child p. */
  function ChildGone(s: SupervisorState, p: Process): SupervisorState
    requires p < |s.bornFor|
  {
    var t := s.(exited := s.exited + {p});
    if IsCurrent(s, s.bornFor[p]) then ScheduleRestart(t, s.bornFor[p].device) else t
  }

  /** The health timer of d ticks. */
  function SendPoll(s: SupervisorState, d: DeviceId): SupervisorState
    requires d in s.sessions
  {
    s.(polled := s.polled + {KeyOf(d, s.sessions[d])})
  }

  function HealthAnswer(s: SupervisorState, k: Key, isHealthy: bool, now: Time, tuning: Tuning): SupervisorState {
    if !IsCurrent(s, k) then s
    else
      var x := s.sessions[k.device];
      if isHealthy then
        s.(sessions := s.sessions[k.device := x.(isReady := true, healthFailCount := 0, restartAttempt := 0)])
      else if !x.isReady then
        (if now - x.launchedAt > tuning.readyDeadlineMs then ScheduleRestart(s, k.device) else s)
      else
        var t := s.(sessions := s.sessions[k.device := x.(healthFailCount := x.healthFailCount + 1)]);
        if x.healthFailCount + 1 < tuning.healthFailThreshold then t else ScheduleRestart(t, k.device)
  }

  function RestartFires(s: SupervisorState, d: DeviceId, now: Time): SupervisorState
    requires d in s.sessions
  {
    BeginLaunch(s.(sessions := s.sessions[d := s.sessions[d].(hasRestartTimer := false)]), d, now)
  }

  function ForgetExited(s: SupervisorState): SupervisorState {
    s.(terminating := Unexited(s.terminating, s.exited))
  }

  function HeldPorts(sessions: map<DeviceId, Session>): set<nat> {
    set d | d in sessions :: sessions[d].httpPort
  }

  /** Exactly one of: launch in flight for the current generation, health timer, restart timer. The runner is in its slot
      exactly while the health timer is armed; a ready session has it. */
  ghost predicate SessionInv(s: SupervisorState, d: DeviceId)
    requires d in s.sessions
  {
    var x := s.sessions[d];
    var launching := KeyOf(d, x) in s.launches;
    && (launching || x.hasHealthTimer || x.hasRestartTimer)
    && !(launching && x.hasHealthTimer) && !(launching && x.hasRestartTimer) && !(x.hasHealthTimer && x.hasRestartTimer)
    && x.instrument.Some? == x.hasHealthTimer
    && (x.isReady ==> x.hasHealthTimer)
  }

  /** Keys belong to sessions and generations already begun; a health check or a child of the current generation means
      that its health timer is armed. */
  ghost predicate KeyInv(s: SupervisorState, k: Key) {
    && k.id < s.nextSession
    && (k.device in s.sessions && s.sessions[k.device].id == k.id ==> k.generation <= s.sessions[k.device].generation)
  }

  ghost predicate KeysInv(s: SupervisorState) {
    && (forall k :: k in s.launches ==> KeyInv(s, k))
    && (forall k :: k in s.polled ==> KeyInv(s, k) && (IsCurrent(s, k) ==> s.sessions[k.device].hasHealthTimer))
    && (forall p :: 0 <= p < |s.bornFor| ==>
          KeyInv(s, s.bornFor[p]) && (IsCurrent(s, s.bornFor[p]) ==> s.sessions[s.bornFor[p].device].hasHealthTimer))
    && (forall d :: d in s.sessions ==> s.sessions[d].id < s.nextSession)
  }

  ghost predicate PortsInv(s: SupervisorState) {
    && PoolInv(s.pool, HeldPorts(s.sessions))
    && (forall d, e :: d in s.sessions && e in s.sessions && d != e ==> s.sessions[d].httpPort != s.sessions[e].httpPort)
  }

  /** Process p has exited, is being terminated, or is the runner of a live session. */
  ghost predicate Tracked(s: SupervisorState, p: Process) {
    p in s.exited || p in s.terminating || exists d :: d in s.sessions && s.sessions[d].instrument == Some(p)
  }

  ghost predicate ChildrenInv(s: SupervisorState) {
    forall p: Process :: p < |s.bornFor| ==> Tracked(s, p)
  }

  ghost predicate SessionsInv(s: SupervisorState) {
    forall d :: d in s.sessions ==> SessionInv(s, d)
  }

  ghost predicate SupervisorInv(s: SupervisorState) {
    PortsInv(s) && ChildrenInv(s) && KeysInv(s) && SessionsInv(s)
  }

  lemma HeldPortsAfter(a: map<DeviceId, Session>, d: DeviceId, x: Session)
    requires forall e, f :: e in a && f in a && e != f ==> a[e].httpPort != a[f].httpPort
    ensures d in a ==> HeldPorts(a - {d}) == HeldPorts(a) - {a[d].httpPort}
    ensures d in a && x.httpPort == a[d].httpPort ==> HeldPorts(a[d := x]) == HeldPorts(a)
    ensures d !in a ==> HeldPorts(a[d := x]) == HeldPorts(a) + {x.httpPort}
  {
    var b, c := a[d := x], a - {d};
    forall p | p in HeldPorts(a)
      ensures (p in HeldPorts(b) || (d in a && p == a[d].httpPort)) && (p in HeldPorts(c) || (d in a && p == a[d].httpPort))
    {
      var e :| e in a && a[e].httpPort == p;
      if e != d { assert b[e].httpPort == p && c[e].httpPort == p; }
    }
    assert b[d].httpPort in HeldPorts(b);
    assert d in a ==> a[d].httpPort in HeldPorts(a);
  }

  /** From s to t only session d changed; its process stayed, exited, or moved to `terminating`. */
  lemma ChildrenFollow(s: SupervisorState, t: SupervisorState, d: DeviceId)
    requires ChildrenInv(s) && s.exited <= t.exited
    requires forall p :: p in s.terminating ==> p in t.terminating
    requires forall e :: e in s.sessions && e != d ==> e in t.sessions && t.sessions[e] == s.sessions[e]
    requires d in s.sessions && s.sessions[d].instrument.Some? ==>
               var p := s.sessions[d].instrument.value;
               p in t.terminating || p in t.exited || (d in t.sessions && t.sessions[d].instrument == Some(p))
    requires forall p: Process :: |s.bornFor| <= p < |t.bornFor| ==> Tracked(t, p)
    ensures ChildrenInv(t)
  {
    forall p: Process | p < |t.bornFor| ensures Tracked(t, p) {
      if p < |s.bornFor| {
        assert Tracked(s, p);
        if p !in s.exited && p !in s.terminating {
          var e :| e in s.sessions && s.sessions[e].instrument == Some(p);
          assert e != d ==> t.sessions[e] == s.sessions[e];
        }
      }
    }
  }

  /** The invariant with session d's own part left out. */
  ghost predicate AllBut(s: SupervisorState, d: DeviceId) {
    && PortsInv(s) && ChildrenInv(s) && KeysInv(s) && d in s.sessions
    && forall e :: e in s.sessions && e != d ==> SessionInv(s, e)
  }

  /** Restarting brings a session with no launch in flight for its generation back to order. */
  /** A new generation of d's session outdates every key of d there is. */
  lemma NewGenerationKeepsKeys(s: SupervisorState, t: SupervisorState, d: DeviceId)
    requires KeysInv(s) && d in s.sessions && t.sessions.Keys == s.sessions.Keys
    requires forall e :: e in s.sessions && e != d ==> t.sessions[e] == s.sessions[e]
    requires t.sessions[d].id == s.sessions[d].id && t.sessions[d].generation == s.sessions[d].generation + 1
    requires KeyOf(d, s.sessions[d]) !in s.launches
    requires t.launches == s.launches && t.polled == s.polled && t.bornFor == s.bornFor && t.nextSession == s.nextSession
    ensures KeysInv(t) && KeyOf(d, t.sessions[d]) !in t.launches
  {
    forall k | k in s.launches || k in s.polled ensures KeyInv(t, k) {
      assert KeyInv(s, k);
    }
    forall p | 0 <= p < |t.bornFor| ensures KeyInv(t, t.bornFor[p]) {
      assert KeyInv(s, s.bornFor[p]);
    }
  }

  lemma ScheduleRestartKeepsInv(s: SupervisorState, d: DeviceId)
    requires AllBut(s, d) && KeyOf(d, s.sessions[d]) !in s.launches
    requires s.sessions[d].hasRestartTimer ==> SessionInv(s, d)
    ensures SupervisorInv(ScheduleRestart(s, d))
  {
    hide PoolInv, HeldPorts;
    if !s.sessions[d].hasRestartTimer {
      var t := ScheduleRestart(s, d);
      ChildrenFollow(s, t, d);
      HeldPortsAfter(s.sessions, d, t.sessions[d]);
      assert t.sessions == s.sessions[d := t.sessions[d]];
      NewGenerationKeepsKeys(s, t, d);
      assert KeyOf(d, t.sessions[d]) !in t.launches;
      forall e | e in t.sessions ensures SessionInv(t, e) {
        if e != d { assert SessionInv(s, e); }
      }
    }
  }

  /** A change of session d that keeps its identity, generation, port and slot. */
  lemma TouchKeepsAllBut(s: SupervisorState, d: DeviceId, x: Session)
    requires AllBut(s, d)
    requires var y := s.sessions[d];
      x.id == y.id && x.generation == y.generation && x.httpPort == y.httpPort && x.instrument == y.instrument && x.hasHealthTimer == y.hasHealthTimer
    ensures AllBut(s.(sessions := s.sessions[d := x]), d)
  {
    hide PoolInv, HeldPorts;
    var t := s.(sessions := s.sessions[d := x]);
    ChildrenFollow(s, t, d);
    HeldPortsAfter(s.sessions, d, x);
    forall k ensures (KeyInv(s, k) <==> KeyInv(t, k)) && (IsCurrent(s, k) <==> IsCurrent(t, k)) {}
    forall e | e in t.sessions && e != d ensures SessionInv(t, e) {
      assert SessionInv(s, e);
    }
  }

  lemma BeginLaunchKeepsInv(s: SupervisorState, d: DeviceId, now: Time)
    requires AllBut(s, d)
    requires var x := s.sessions[d]; !x.hasHealthTimer && !x.hasRestartTimer && x.instrument.None? && !x.isReady
    ensures SupervisorInv(BeginLaunch(s, d, now))
  {
    var x := s.sessions[d].(launchedAt := now);
    var t, u := s.(sessions := s.sessions[d := x]), BeginLaunch(s, d, now);
    TouchKeepsAllBut(s, d, x);
    assert KeyInv(u, KeyOf(d, x));
    forall k ensures (KeyInv(u, k) <==> KeyInv(t, k)) && (IsCurrent(u, k) <==> IsCurrent(t, k)) {}
    ChildrenFollow(t, u, d);
    forall e | e in u.sessions ensures SessionInv(u, e) {
      if e != d { assert SessionInv(t, e); }
    }
  }

  lemma StartKeepsInv(s: SupervisorState, d: DeviceId, now: Time)
    requires SupervisorInv(s) && d !in s.sessions
    ensures SupervisorInv(StartSession(s, d, now))
  {
    var x := Session(s.nextSession, NextPort(s.pool), None, false, false, 0, 0, false, false, 0, 0);
    var t := s.(sessions := s.sessions[d := x], pool := Allocate(s.pool), nextSession := s.nextSession + 1);
    AllocateKeepsInv(s.pool, HeldPorts(s.sessions));
    HeldPortsAfter(s.sessions, d, x);
    ChildrenFollow(s, t, d);
    forall k | KeyInv(s, k) ensures KeyInv(t, k) && (IsCurrent(t, k) ==> IsCurrent(s, k)) {}
    forall e | e in t.sessions && e != d ensures SessionInv(t, e) {
      assert SessionInv(s, e);
    }
    BeginLaunchKeepsInv(t, d, now);
  }

  lemma StopKeepsInv(s: SupervisorState, d: DeviceId)
    requires SupervisorInv(s)
    ensures SupervisorInv(StopSession(s, d))
  {
    if d in s.sessions {
      var t := StopSession(s, d);
      CoolKeepsInv(s.pool, HeldPorts(s.sessions), s.sessions[d].httpPort);
      HeldPortsAfter(s.sessions, d, s.sessions[d]);
      assert t.sessions == s.sessions - {d};
      ChildrenFollow(s, t, d);
      forall k | KeyInv(s, k) ensures KeyInv(t, k) && (IsCurrent(t, k) ==> IsCurrent(s, k) && k.device != d) {}
      forall e | e in t.sessions ensures SessionInv(t, e) {
        assert SessionInv(s, e);
      }
    }
  }

  /** Taking a key out of the launches in flight concerns only the session it is current for. */
  lemma LaunchGone(s: SupervisorState, k: Key)
    requires SupervisorInv(s)
    ensures var t := s.(launches := s.launches - {k});
            if IsCurrent(s, k) then AllBut(t, k.device) else SupervisorInv(t)
  {
    var t := s.(launches := s.launches - {k});
    ChildrenFollow(s, t, k.device);
    forall x ensures (KeyInv(s, x) <==> KeyInv(t, x)) && (IsCurrent(s, x) <==> IsCurrent(t, x)) {}
    forall e | e in t.sessions && (e != k.device || !IsCurrent(s, k)) ensures SessionInv(t, e) {
      assert SessionInv(s, e);
    }
  }

  lemma EndLaunchKeepsInv(s: SupervisorState, k: Key, end: LaunchEnd, installed: bool)
    requires SupervisorInv(s) && k in s.launches
    ensures SupervisorInv(EndLaunch(s, k, end, installed))
  {
    LaunchGone(s, k);
    if IsCurrent(s, k) {
      assert SessionInv(s, k.device);
      var t := s.(launches := s.launches - {k});
      var x := s.sessions[k.device].(isInstalled := s.sessions[k.device].isInstalled || installed);
      TouchKeepsAllBut(t, k.device, x);
      var u := t.(sessions := t.sessions[k.device := x]);
      assert KeyOf(k.device, x) == k;
      if end.Spawns? {
        SpawnKeepsInv(u, k.device);
        assert EndLaunch(s, k, end, installed).sessions
            == u.sessions[k.device := x.(instrument := Some(|u.bornFor|), hasHealthTimer := true)];
      } else {
        ScheduleRestartKeepsInv(u, k.device);
      }
    }
  }

  lemma SpawnKeepsInv(s: SupervisorState, d: DeviceId)
    requires AllBut(s, d) && KeyOf(d, s.sessions[d]) !in s.launches
    requires var x := s.sessions[d]; x.instrument.None? && !x.hasHealthTimer && !x.hasRestartTimer && !x.isReady
    ensures SupervisorInv(s.(sessions := s.sessions[d := s.sessions[d].(instrument := Some(|s.bornFor|), hasHealthTimer := true)],
                             bornFor := s.bornFor + [KeyOf(d, s.sessions[d])]))
  {
    var t := s.(sessions := s.sessions[d := s.sessions[d].(instrument := Some(|s.bornFor|), hasHealthTimer := true)],
                bornFor := s.bornFor + [KeyOf(d, s.sessions[d])]);
    HeldPortsAfter(s.sessions, d, t.sessions[d]);
    assert Tracked(t, |s.bornFor|);
    ChildrenFollow(s, t, d);
    forall k ensures (KeyInv(s, k) <==> KeyInv(t, k)) && (IsCurrent(s, k) <==> IsCurrent(t, k)) {}
    assert KeyInv(t, KeyOf(d, s.sessions[d]));
    forall e | e in t.sessions ensures SessionInv(t, e) {
      if e != d { assert SessionInv(s, e); }
    }
  }

  lemma ChildGoneKeepsInv(s: SupervisorState, p: Process)
    requires SupervisorInv(s) && p < |s.bornFor|
    ensures SupervisorInv(ChildGone(s, p))
  {
    var k, t := s.bornFor[p], s.(exited := s.exited + {p});
    ChildrenFollow(s, t, k.device);
    forall x ensures (KeyInv(s, x) <==> KeyInv(t, x)) && (IsCurrent(s, x) <==> IsCurrent(t, x)) {}
    forall e | e in t.sessions ensures SessionInv(t, e) {
      assert SessionInv(s, e);
    }
    if IsCurrent(s, k) {
      ScheduleRestartKeepsInv(t, k.device);
    }
  }

  lemma HealthAnswerKeepsInv(s: SupervisorState, k: Key, isHealthy: bool, now: Time, tuning: Tuning)
    requires SupervisorInv(s) && k in s.polled
    ensures SupervisorInv(HealthAnswer(s, k, isHealthy, now, tuning))
  {
    hide PoolInv;
    if IsCurrent(s, k) {
      var x := s.sessions[k.device];
      assert SessionInv(s, k.device);
      if isHealthy {
        NoteKeepsInv(s, k.device, x.(isReady := true, healthFailCount := 0, restartAttempt := 0));
      } else if !x.isReady {
        ScheduleRestartKeepsInv(s, k.device);
      } else {
        NoteKeepsInv(s, k.device, x.(healthFailCount := x.healthFailCount + 1));
        ScheduleRestartKeepsInv(s.(sessions := s.sessions[k.device := x.(healthFailCount := x.healthFailCount + 1)]), k.device);
      }
    }
  }

  /** What a health answer notes about a session leaves its timers alone. */
  lemma NoteKeepsInv(s: SupervisorState, d: DeviceId, x: Session)
    requires SupervisorInv(s) && d in s.sessions && s.sessions[d].hasHealthTimer
    requires x == s.sessions[d].(isReady := x.isReady, healthFailCount := x.healthFailCount, restartAttempt := x.restartAttempt)
    ensures var t := s.(sessions := s.sessions[d := x]); SupervisorInv(t) && KeyOf(d, x) !in t.launches
  {
    assert SessionInv(s, d);
    assert KeyOf(d, x) == KeyOf(d, s.sessions[d]);
    TouchKeepsAllBut(s, d, x);
  }

  lemma RestartFiresKeepsInv(s: SupervisorState, d: DeviceId, now: Time)
    requires SupervisorInv(s) && d in s.sessions && s.sessions[d].hasRestartTimer
    ensures SupervisorInv(RestartFires(s, d, now))
  {
    assert SessionInv(s, d);
    var x := s.sessions[d].(hasRestartTimer := false);
    TouchKeepsAllBut(s, d, x);
    BeginLaunchKeepsInv(s.(sessions := s.sessions[d := x]), d, now);
  }

  /** Steps that touch neither sessions, launches nor generations. */
  lemma QuietStepsKeepInv(s: SupervisorState, d: DeviceId, i: nat)
    requires SupervisorInv(s)
    ensures SupervisorInv(ForgetExited(s))
    ensures d in s.sessions && s.sessions[d].hasHealthTimer ==> SupervisorInv(SendPoll(s, d))
    ensures i < |s.pool.cooling| ==> SupervisorInv(s.(pool := Recycle(s.pool, i)))
  {
    UnexitedIs(s.terminating, s.exited);
    var t := ForgetExited(s);
    forall p: Process | p < |t.bornFor| ensures Tracked(t, p) {
      assert Tracked(s, p);
    }
    SameSessions(s, t);
    if d in s.sessions && s.sessions[d].hasHealthTimer {
      assert KeyInv(s, KeyOf(d, s.sessions[d]));
      ChildrenFollow(s, SendPoll(s, d), d);
      SameSessions(s, SendPoll(s, d));
    }
    if i < |s.pool.cooling| {
      RecycleKeepsInv(s.pool, HeldPorts(s.sessions), i);
      ChildrenFollow(s, s.(pool := Recycle(s.pool, i)), d);
      SameSessions(s, s.(pool := Recycle(s.pool, i)));
    }
  }

  lemma SameSessions(s: SupervisorState, t: SupervisorState)
    requires KeysInv(s) && SessionsInv(s)
    requires t.sessions == s.sessions && t.launches == s.launches && t.bornFor == s.bornFor && t.nextSession == s.nextSession
    requires forall k :: k in t.polled ==> k in s.polled || (IsCurrent(s, k) && s.sessions[k.device].hasHealthTimer)
    ensures KeysInv(t) && SessionsInv(t)
  {
    forall x ensures (KeyInv(s, x) <==> KeyInv(t, x)) && (IsCurrent(s, x) <==> IsCurrent(t, x)) {}
    forall e | e in t.sessions ensures SessionInv(t, e) {
      assert SessionInv(s, e);
    }
  }

  /** Everything that can happen to the supervisor; `syncDevices` is a series of starts and stops. */
  datatype Event =
    | Starts(device: DeviceId, now: Time)
    | Stops(device: DeviceId)
    | LaunchEnds(key: Key, end: LaunchEnd, installed: bool)
    | ChildEvent(process: Process)
    | PollTimer(device: DeviceId)
    | PollAnswer(key: Key, isHealthy: bool, now: Time)
    | RestartTimer(device: DeviceId, now: Time)
    | CooldownTimer(index: nat)
    | Waits

  predicate CanHappen(s: SupervisorState, e: Event) {
    match e
    case Starts(d, _) => d !in s.sessions
    case LaunchEnds(k, _, _) => k in s.launches
    case ChildEvent(p) => p < |s.bornFor|
    case PollTimer(d) => d in s.sessions && s.sessions[d].hasHealthTimer
    case PollAnswer(k, _, _) => k in s.polled
    case RestartTimer(d, _) => d in s.sessions && s.sessions[d].hasRestartTimer
    case CooldownTimer(i) => i < |s.pool.cooling|
    case _ => true
  }

  function Step(s: SupervisorState, e: Event, tuning: Tuning): SupervisorState
    requires CanHappen(s, e)
  {
    match e
    case Starts(d, now) => StartSession(s, d, now)
    case Stops(d) => StopSession(s, d)
    case LaunchEnds(k, end, installed) => EndLaunch(s, k, end, installed)
    case ChildEvent(p) => ChildGone(s, p)
    case PollTimer(d) => SendPoll(s, d)
    case PollAnswer(k, isHealthy, now) => HealthAnswer(s, k, isHealthy, now, tuning)
    case RestartTimer(d, now) => RestartFires(s, d, now)
    case CooldownTimer(i) => s.(pool := Recycle(s.pool, i))
    case Waits => ForgetExited(s)
  }

  lemma StepKeepsInv(s: SupervisorState, e: Event, tuning: Tuning)
    requires SupervisorInv(s) && CanHappen(s, e)
    ensures SupervisorInv(Step(s, e, tuning))
  {
    match e
    case Starts(d, now) => StartKeepsInv(s, d, now);
    case Stops(d) => StopKeepsInv(s, d);
    case LaunchEnds(k, end, installed) => EndLaunchKeepsInv(s, k, end, installed);
    case ChildEvent(p) => ChildGoneKeepsInv(s, p);
    case PollTimer(d) => QuietStepsKeepInv(s, d, 0);
    case PollAnswer(k, isHealthy, now) => HealthAnswerKeepsInv(s, k, isHealthy, now, tuning);
    case RestartTimer(d, now) => RestartFiresKeepsInv(s, d, now);
    case CooldownTimer(i) => QuietStepsKeepInv(s, DeviceId(""), i);
    case Waits => QuietStepsKeepInv(s, DeviceId(""), 0);
  }

  ghost predicate IsRun(states: seq<SupervisorState>, events: seq<Event>, basePort: nat, tuning: Tuning) {
    && |states| == |events| + 1 && states[0] == NewSupervisor(basePort)
    && forall i :: 0 <= i < |events| ==> CanHappen(states[i], events[i]) && states[i + 1] == Step(states[i], events[i], tuning)
  }

  /** In every state of every run: ports are conserved, no spawned runner is lost, and every session has exactly one of
      launch in flight, health timer and restart timer. */
  lemma {:induction false} RunKeepsInv(states: seq<SupervisorState>, events: seq<Event>, basePort: nat, tuning: Tuning, n: nat)
    requires IsRun(states, events, basePort, tuning) && n < |states|
    ensures SupervisorInv(states[n]) && states[n].pool.basePort == basePort
  {
    if n > 0 {
      RunKeepsInv(states, events, basePort, tuning, n - 1);
      StepKeepsInv(states[n - 1], events[n - 1], tuning);
    }
  }

  /** A session is ready only by a healthy answer of its own generation. */
  lemma StepReady(s: SupervisorState, e: Event, tuning: Tuning, d: DeviceId)
    requires CanHappen(s, e) && d in Step(s, e, tuning).sessions && Step(s, e, tuning).sessions[d].isReady
    ensures var x := Step(s, e, tuning).sessions[d];
            || (d in s.sessions && s.sessions[d].isReady && KeyOf(d, s.sessions[d]) == KeyOf(d, x))
            || (e.PollAnswer? && e.isHealthy && e.key == KeyOf(d, x))
  {
  }

  /** In every run: a ready session has had a healthy answer since its present launch; answers of earlier ones, however late,
      never make it ready. */
  lemma {:induction false} ReadyMeansHealthy(states: seq<SupervisorState>, events: seq<Event>, basePort: nat, tuning: Tuning, n: nat, d: DeviceId)
    requires IsRun(states, events, basePort, tuning) && n < |states| && d in states[n].sessions && states[n].sessions[d].isReady
    ensures exists i :: 0 <= i < n && events[i].PollAnswer? && events[i].isHealthy && events[i].key == KeyOf(d, states[n].sessions[d])
  {
    hide Step, CanHappen;
    if n > 0 {
      StepReady(states[n - 1], events[n - 1], tuning, d);
      var e, x := events[n - 1], states[n].sessions[d];
      if !(e.PollAnswer? && e.isHealthy && e.key == KeyOf(d, x)) {
        ReadyMeansHealthy(states, events, basePort, tuning, n - 1, d);
      }
    }
  }

  class Supervisor {
    const tuning: Tuning
    var sessions: map<DeviceId, Session>
    var pool: Pool
    var terminating: seq<Process>
    var exited: set<Process>
    var nextProcess: nat
    var nextSession: nat
    ghost var launches: set<Key>
    ghost var polled: set<Key>
    ghost var bornFor: seq<Key>

    ghost function State(): SupervisorState
      reads this
    {
      SupervisorState(sessions, pool, terminating, exited, launches, polled, bornFor, nextSession)
    }

    ghost predicate Valid()
      reads this
    {
      SupervisorInv(State()) && nextProcess == |bornFor|
    }

    constructor (basePort: nat, tuning: Tuning)
      ensures Valid() && State() == NewSupervisor(basePort) && this.tuning == tuning
    {
      this.tuning := tuning;
      sessions, pool, terminating, exited := map[], Pool(basePort, 0, [], []), [], {};
      launches, polled, bornFor := {}, {}, [];
      nextProcess, nextSession := 0, 0;
    }

    /** After a sync exactly the discovered devices have sessions, and those that stay were not touched. */
    method SyncDevices(serials: set<DeviceId>, now: Time)
      requires Valid()
      modifies this
      ensures Valid() && sessions.Keys == serials
      ensures forall d :: d in serials && d in old(sessions) ==> sessions[d] == old(sessions)[d]
    {
      StartMissing(serials, now);
      StopGone(sessions.Keys - serials);
    }

    method StartMissing(serials: set<DeviceId>, now: Time)
      requires Valid()
      modifies this
      ensures Valid() && sessions.Keys == old(sessions).Keys + serials
      ensures forall d :: d in old(sessions) ==> sessions[d] == old(sessions)[d]
    {
      var todo := serials;
      while todo != {}
        invariant Valid() && todo <= serials
        invariant sessions.Keys == old(sessions).Keys + (serials - todo)
        invariant forall d :: d in old(sessions) ==> sessions[d] == old(sessions)[d]
      {
        var d :| d in todo;
        todo := todo - {d};
        if d !in sessions {
          Start(d, now);
        }
      }
    }

    method StopGone(serials: set<DeviceId>)
      requires Valid()
      modifies this
      ensures Valid() && sessions.Keys == old(sessions).Keys - serials
      ensures forall d :: d in sessions ==> sessions[d] == old(sessions)[d]
    {
      var gone := serials;
      while gone != {}
        invariant Valid() && gone <= serials && sessions.Keys == old(sessions).Keys - (serials - gone)
        invariant forall d :: d in sessions ==> sessions[d] == old(sessions)[d]
      {
        var d :| d in gone;
        gone := gone - {d};
        Stop(d);
      }
    }

    method AllocatePort() returns (port: nat)
      modifies this`pool
      ensures port == NextPort(old(pool)) && pool == Allocate(old(pool))
    {
      if pool.freePorts != [] {
        port := pool.freePorts[0];
        pool := pool.(freePorts := pool.freePorts[1..]);
        return;
      }
      port := pool.basePort + pool.nextPortOffset;
      pool := pool.(nextPortOffset := pool.nextPortOffset + 1);
    }

    method Start(d: DeviceId, now: Time)
      requires Valid() && d !in sessions
      modifies this
      ensures Valid() && State() == StartSession(old(State()), d, now)
      ensures sessions.Keys == old(sessions).Keys + {d} && forall e :: e in old(sessions) ==> sessions[e] == old(sessions)[e]
    {
      StartKeepsInv(State(), d, now);
      var port := AllocatePort();
      sessions := sessions[d := Session(nextSession, port, None, false, false, 0, 0, false, false, 0, 0)];
      nextSession := nextSession + 1;
      LaunchSession(d, now);
    }

    /** Up to the first wait of the launch. */
    method LaunchSession(d: DeviceId, now: Time)
      requires d in sessions
      modifies this`sessions, this`launches
      ensures State() == BeginLaunch(old(State()), d, now)
    {
      launches := launches + {KeyOf(d, sessions[d])};
      sessions := sessions[d := sessions[d].(launchedAt := now)];
    }

    /** The rest of the launch for key k, once preparing the device is over. */
    method FinishLaunch(k: Key, end: LaunchEnd, installed: bool)
      requires Valid() && k in launches
      modifies this
      ensures Valid() && State() == EndLaunch(old(State()), k, end, installed)
    {
      EndLaunchKeepsInv(State(), k, end, installed);
      FinishPreparedLaunch(k, end, installed);
    }

    method FinishPreparedLaunch(k: Key, end: LaunchEnd, installed: bool)
      requires nextProcess == |bornFor|
      modifies this
      ensures nextProcess == |bornFor| && State() == EndLaunch(old(State()), k, end, installed)
    {
      launches := launches - {k};
      if IsStale(k) { return; }
      sessions := sessions[k.device := sessions[k.device].(isInstalled := sessions[k.device].isInstalled || installed)];
      if end.Spawns? {
        SpawnInstrument(k);
      } else {
        Restart(k.device);
      }
    }

    method SpawnInstrument(k: Key)
      requires nextProcess == |bornFor| && k.device in sessions
      modifies this`sessions, this`nextProcess, this`bornFor
      ensures nextProcess == |bornFor| && bornFor == old(bornFor) + [k]
      ensures sessions == old(sessions)[k.device := old(sessions)[k.device].(instrument := Some(|old(bornFor)|), hasHealthTimer := true)]
    {
      sessions := sessions[k.device := sessions[k.device].(instrument := Some(nextProcess))];
      nextProcess := nextProcess + 1;
      bornFor := bornFor + [k];
      sessions := sessions[k.device := sessions[k.device].(hasHealthTimer := true)];
    }

    predicate IsStale(k: Key)
      reads this
    {
      k.device !in sessions || sessions[k.device].id != k.id || sessions[k.device].generation != k.generation
    }

    method OnChildGone(p: Process, k: Key)
      requires Valid() && p < |bornFor| && k == bornFor[p]
      modifies this
      ensures Valid() && State() == ChildGone(old(State()), p)
    {
      ChildGoneKeepsInv(State(), p);
      exited := exited + {p};
      if IsStale(k) { return; }
      Restart(k.device);
    }

    method OnHealthTimer(d: DeviceId)
      requires Valid() && d in sessions && sessions[d].hasHealthTimer
      modifies this`polled
      ensures Valid() && State() == SendPoll(old(State()), d)
    {
      QuietStepsKeepInv(State(), d, 0);
      polled := polled + {KeyOf(d, sessions[d])};
    }

    method OnHealthAnswer(k: Key, isHealthy: bool, now: Time)
      requires Valid() && k in polled
      modifies this
      ensures Valid() && State() == HealthAnswer(old(State()), k, isHealthy, now, tuning)
    {
      HealthAnswerKeepsInv(State(), k, isHealthy, now, tuning);
      if IsStale(k) { return; }
      var x := sessions[k.device];
      if isHealthy {
        sessions := sessions[k.device := x.(isReady := true, healthFailCount := 0, restartAttempt := 0)];
        return;
      }
      if !x.isReady && now - x.launchedAt > tuning.readyDeadlineMs {
        Restart(k.device);
        return;
      }
      if !x.isReady { return; }
      sessions := sessions[k.device := x.(healthFailCount := x.healthFailCount + 1)];
      if sessions[k.device].healthFailCount < tuning.healthFailThreshold { return; }
      Restart(k.device);
    }

    method Restart(d: DeviceId)
      requires d in sessions
      modifies this`sessions, this`terminating
      ensures State() == ScheduleRestart(old(State()), d)
    {
      if sessions[d].hasRestartTimer { return; }
      TeardownProcesses(d);
      var x := sessions[d].(generation := sessions[d].generation + 1, isReady := false, healthFailCount := 0);
      sessions := sessions[d := x.(restartAttempt := x.restartAttempt + 1, hasRestartTimer := true)];
    }

    method OnRestartTimer(d: DeviceId, now: Time)
      requires Valid() && d in sessions && sessions[d].hasRestartTimer
      modifies this
      ensures Valid() && State() == RestartFires(old(State()), d, now)
    {
      RestartFiresKeepsInv(State(), d, now);
      sessions := sessions[d := sessions[d].(hasRestartTimer := false)];
      LaunchSession(d, now);
    }

    method Stop(d: DeviceId)
      requires Valid()
      modifies this
      ensures Valid() && State() == StopSession(old(State()), d)
    {
      StopKeepsInv(State(), d);
      if d !in sessions { return; }
      var port := sessions[d].httpPort;
      TeardownProcesses(d);
      sessions := sessions - {d};
      pool := pool.(cooling := pool.cooling + [port]);
    }

    method TeardownProcesses(d: DeviceId)
      requires d in sessions
      modifies this`sessions, this`terminating
      ensures State() == Teardown(old(State()), d)
    {
      var tracked := sessions[d].instrument;
      sessions := sessions[d := sessions[d].(hasHealthTimer := false, instrument := None)];
      if tracked.None? || tracked.value in exited { return; }
      terminating := terminating + [tracked.value];
    }

    /** One round of waiting for termination. */
    method FilterTerminating()
      requires Valid()
      modifies this`terminating
      ensures Valid() && State() == ForgetExited(old(State()))
    {
      QuietStepsKeepInv(State(), DeviceId(""), 0);
      terminating := Filter(terminating, exited);
    }
  }
}
