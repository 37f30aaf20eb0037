/** One mirroring stream of an Android device: daemon, socket, timers (packages/agent/src/android-stream.ts). */
module AndroidStream {
  import opened Common
  import opened Bytes
  import opened MirrorPacketParser
  import opened Processes
  import PacketFraming

  /** `hasSocket`: the session's socket is open. */
  datatype Session = Session(id: nat, tracked: Option<Process>, hasSocket: bool)

  /** The two waits of a launch. */
  datatype Phase = Pushing | Forwarding

  /** Timers carry the session their callback closes over, `bornFor` tells for which session each child was spawned,
      `launches` are the launches in flight. `parser` belongs to the session, if there is one. */
  datatype StreamState = StreamState(
    isActive: bool,
    session: Option<Session>,
    parser: ParserState,
    hasRestartTimer: bool,
    preambleTimer: Option<nat>,
    connectTimer: Option<nat>,
    restartAttempt: nat,
    terminating: seq<Process>,
    exited: set<Process>,
    launches: map<nat, Phase>,
    bornFor: seq<nat>,
    nextSession: nat)

  const NEW_STREAM := StreamState(false, None, NEW_PARSER, false, None, None, 0, [], {}, map[], [], 0)

  predicate IsCurrent(s: StreamState, id: nat) {
    s.isActive && s.session.Some? && s.session.value.id == id
  }

  function ClearTimers(s: StreamState): StreamState {
    s.(hasRestartTimer := false, preambleTimer := None, connectTimer := None)
  }

  function TeardownSession(s: StreamState): StreamState {
    var lost := if s.session.Some? && s.session.value.tracked.Some? && s.session.value.tracked.value !in s.exited
                then [s.session.value.tracked.value] else [];
    s.(session := None, terminating := s.terminating + lost)
  }

  function ScheduleRestart(s: StreamState): StreamState {
    if !s.isActive || s.hasRestartTimer then s
    else TeardownSession(ClearTimers(s)).(restartAttempt := s.restartAttempt + 1, hasRestartTimer := true)
  }

  /** `launch` up to its first wait. */
  function BeginLaunch(s: StreamState): StreamState {
    s.(session := Some(Session(s.nextSession, None, false)), parser := NEW_PARSER,
       launches := s.launches[s.nextSession := Pushing], nextSession := s.nextSession + 1)
  }

  function Start(s: StreamState): StreamState {
    if s.isActive then s else BeginLaunch(s.(isActive := true))
  }

  function Stop(s: StreamState): StreamState {
    TeardownSession(ClearTimers(s.(isActive := false)))
  }

  /** The push for session `id` is over; if it went well, spawning the daemon may still throw. */
  function EndPush(s: StreamState, id: nat, isPushed: bool, isSpawned: bool): StreamState {
    var t := s.(launches := s.launches - {id});
    if !IsCurrent(s, id) then t
    else if !isPushed || !isSpawned then ScheduleRestart(t)
    else s.(session := Some(s.session.value.(tracked := Some(|s.bornFor|))), bornFor := s.bornFor + [id], launches := s.launches[id := Forwarding])
  }

  function EndForward(s: StreamState, id: nat, isForwarded: bool): StreamState {
    var t := s.(launches := s.launches - {id});
    if !IsCurrent(s, id) then t
    else if !isForwarded then ScheduleRestart(t)
    else t.(preambleTimer := Some(id), session := Some(s.session.value.(hasSocket := true)))
  }

  /** An `exit` or `error` event of child p. */
  function ChildGone(s: StreamState, p: Process): StreamState
    requires p < |s.bornFor|
  {
    var t := s.(exited := s.exited + {p});
    if IsCurrent(s, s.bornFor[p]) then ScheduleRestart(t) else t
  }

  /** A chunk read from the socket of session `id`. */
  function Receive(s: StreamState, id: nat, chunk: seq<Byte>): StreamState {
    if s.session.None? || s.session.value.id != id then s
    else
      var (parser, out) := PushChunk(s.parser, chunk);
      var t := s.(parser := parser);
      if out.None? then ScheduleRestart(t)
      else if s.parser.preamble.None? && parser.preamble.Some? then t.(restartAttempt := 0, preambleTimer := None)
      else t
  }

  /** The frames that go out for a chunk. */
  function FramesSent(s: StreamState, id: nat, chunk: seq<Byte>): seq<PacketFraming.Packet> {
    var out := PushChunk(s.parser, chunk).1;
    if s.session.None? || s.session.value.id != id || out.None? then [] else out.value
  }

  /** The socket of session `id` closes: retried until the preamble has come, a restart afterwards. */
  function SocketCloses(s: StreamState, id: nat): StreamState {
    if !IsCurrent(s, id) then s
    else
      var t := s.(session := Some(s.session.value.(hasSocket := false)));
      if s.parser.preamble.None? then t.(connectTimer := Some(id)) else ScheduleRestart(t)
  }

  function PreambleDeadline(s: StreamState): StreamState
    requires s.preambleTimer.Some?
  {
    var t := s.(preambleTimer := None);
    if !IsCurrent(s, s.preambleTimer.value) || s.parser.preamble.Some? then t else ScheduleRestart(t)
  }

  function Reconnect(s: StreamState): StreamState
    requires s.connectTimer.Some?
  {
    var t := s.(connectTimer := None);
    if !IsCurrent(s, s.connectTimer.value) then t else t.(session := Some(s.session.value.(hasSocket := true)))
  }

  function RestartFires(s: StreamState): StreamState {
    var t := s.(hasRestartTimer := false);
    if !s.isActive then t else BeginLaunch(t)
  }

  /** A live session always waits for something that will come: a step of its launch; else, before the preamble, the
      deadline together with either an open socket or the next attempt to connect; after it, data or the end of an open
      socket. Its daemon is running from the second half of the launch on. */
  ghost predicate SessionInv(s: StreamState) {
    s.session.Some? ==>
      var x := s.session.value;
      && s.isActive && x.id < s.nextSession && !s.parser.framing.isPoisoned
      && (x.tracked.Some? ==> x.tracked.value < |s.bornFor| && s.bornFor[x.tracked.value] == x.id && x.tracked.value !in s.exited)
      && (if x.id in s.launches then
            && s.preambleTimer.None? && s.connectTimer.None? && !x.hasSocket && s.parser == NEW_PARSER
            && x.tracked.Some? == s.launches[x.id].Forwarding?
          else
            && x.tracked.Some?
            && (s.parser.preamble.None? ==> s.preambleTimer == Some(x.id) && s.connectTimer == if x.hasSocket then None else Some(x.id))
            && (s.parser.preamble.Some? ==> s.preambleTimer.None? && s.connectTimer.None? && x.hasSocket))
  }

  /** Active: exactly one of session and restart timer; inactive: neither; without session no other timer. */
  ghost predicate TimersInv(s: StreamState) {
    && (s.isActive ==> s.session.Some? != s.hasRestartTimer)
    && (!s.isActive ==> s.session.None? && !s.hasRestartTimer)
    && (s.session.None? ==> s.preambleTimer.None? && s.connectTimer.None?)
  }

  /** Every spawned daemon has exited, is being terminated, or belongs to the session. */
  ghost predicate ChildrenInv(s: StreamState) {
    && (forall p: Process :: p < |s.bornFor| ==>
          p in s.exited || p in s.terminating || (s.session.Some? && s.session.value.tracked == Some(p)))
    && (forall p :: p in s.exited ==> p < |s.bornFor|)
    && (forall id :: id in s.launches ==> id < s.nextSession)
  }

  ghost predicate StreamInv(s: StreamState) {
    SessionInv(s) && TimersInv(s) && ChildrenInv(s)
  }

  /** Restarting drops the session, whatever state it is in, and keeps track of its daemon. */
  lemma ScheduleRestartKeepsInv(s: StreamState)
    requires ChildrenInv(s) && s.isActive && !s.hasRestartTimer
    ensures StreamInv(ScheduleRestart(s))
  {
  }

  lemma StartKeepsInv(s: StreamState)
    requires StreamInv(s)
    ensures StreamInv(Start(s)) && StreamInv(Stop(s))
    ensures s.hasRestartTimer ==> StreamInv(RestartFires(s))
  {
  }

  lemma LaunchKeepsInv(s: StreamState, id: nat, isDone: bool, isSpawned: bool)
    requires StreamInv(s) && id in s.launches
    ensures s.launches[id].Pushing? ==> StreamInv(EndPush(s, id, isDone, isSpawned))
    ensures s.launches[id].Forwarding? ==> StreamInv(EndForward(s, id, isDone))
  {
    if IsCurrent(s, id) {
      ScheduleRestartKeepsInv(s.(launches := s.launches - {id}));
    }
  }

  lemma ChildGoneKeepsInv(s: StreamState, p: Process)
    requires StreamInv(s) && p < |s.bornFor|
    ensures StreamInv(ChildGone(s, p))
  {
    if IsCurrent(s, s.bornFor[p]) {
      ScheduleRestartKeepsInv(s.(exited := s.exited + {p}));
    }
  }

  /** A push never takes a preamble back and poisons exactly when it returns nothing. */
  lemma PushChunkEffect(s: ParserState, chunk: seq<Byte>)
    ensures var (t, out) := PushChunk(s, chunk);
            (s.preamble.Some? ==> t.preamble == s.preamble) && t.framing.isPoisoned == out.None?
  {
  }

  lemma SocketKeepsInv(s: StreamState, id: nat, chunk: seq<Byte>)
    requires StreamInv(s) && (s.session.Some? && s.session.value.id == id ==> s.session.value.hasSocket)
    ensures StreamInv(Receive(s, id, chunk)) && StreamInv(SocketCloses(s, id))
  {
    PushChunkEffect(s.parser, chunk);
    if IsCurrent(s, id) {
      ScheduleRestartKeepsInv(s.(parser := PushChunk(s.parser, chunk).0));
      ScheduleRestartKeepsInv(s.(session := Some(s.session.value.(hasSocket := false))));
    }
  }

  lemma TimersKeepInv(s: StreamState)
    requires StreamInv(s)
    ensures s.preambleTimer.Some? ==> StreamInv(PreambleDeadline(s))
    ensures s.connectTimer.Some? ==> StreamInv(Reconnect(s))
  {
    if s.preambleTimer.Some? { ScheduleRestartKeepsInv(s.(preambleTimer := None)); }
  }

  datatype Event =
    | Starts
    | Stops
    | PushEnds(id: nat, isPushed: bool, isSpawned: bool)
    | ForwardEnds(id: nat, isForwarded: bool)
    | ChildEvent(process: Process)
    | Data(id: nat, chunk: seq<Byte>)
    | Closes(id: nat)
    | PreambleTimer
    | ConnectTimer
    | RestartTimer
    | Waits

  /** Sockets of a session that is gone may still deliver events. */
  predicate CanHappen(s: StreamState, e: Event) {
    match e
    case PushEnds(id, _, _) => id in s.launches && s.launches[id].Pushing?
    case ForwardEnds(id, _) => id in s.launches && s.launches[id].Forwarding?
    case ChildEvent(p) => p < |s.bornFor|
    case Data(id, _) => s.session.Some? && s.session.value.id == id ==> s.session.value.hasSocket
    case Closes(id) => s.session.Some? && s.session.value.id == id ==> s.session.value.hasSocket
    case PreambleTimer => s.preambleTimer.Some?
    case ConnectTimer => s.connectTimer.Some?
    case RestartTimer => s.hasRestartTimer
    case _ => true
  }

  function Step(s: StreamState, e: Event): StreamState
    requires CanHappen(s, e)
  {
    match e
    case Starts => Start(s)
    case Stops => Stop(s)
    case PushEnds(id, isPushed, isSpawned) => EndPush(s, id, isPushed, isSpawned)
    case ForwardEnds(id, isForwarded) => EndForward(s, id, isForwarded)
    case ChildEvent(p) => ChildGone(s, p)
    case Data(id, chunk) => Receive(s, id, chunk)
    case Closes(id) => SocketCloses(s, id)
    case PreambleTimer => PreambleDeadline(s)
    case ConnectTimer => Reconnect(s)
    case RestartTimer => RestartFires(s)
    case Waits => s.(terminating := Unexited(s.terminating, s.exited))
  }

  lemma StepKeepsInv(s: StreamState, e: Event)
    requires StreamInv(s) && CanHappen(s, e)
    ensures StreamInv(Step(s, e))
  {
    match e
    case Starts => StartKeepsInv(s);
    case Stops => StartKeepsInv(s);
    case PushEnds(id, isPushed, isSpawned) => LaunchKeepsInv(s, id, isPushed, isSpawned);
    case ForwardEnds(id, isForwarded) => LaunchKeepsInv(s, id, isForwarded, true);
    case ChildEvent(p) => ChildGoneKeepsInv(s, p);
    case Data(id, chunk) => SocketKeepsInv(s, id, chunk);
    case Closes(id) => SocketKeepsInv(s, id, []);
    case PreambleTimer => TimersKeepInv(s);
    case ConnectTimer => TimersKeepInv(s);
    case RestartTimer => StartKeepsInv(s);
    case Waits => UnexitedIs(s.terminating, s.exited);
  }

  ghost predicate IsRun(states: seq<StreamState>, events: seq<Event>) {
    && |states| == |events| + 1 && states[0] == NEW_STREAM
    && forall i :: 0 <= i < |events| ==> CanHappen(states[i], events[i]) && states[i + 1] == Step(states[i], events[i])
  }

  /** In every state of every run the stream is never stuck and no daemon is lost. */
  lemma {:induction false} RunKeepsInv(states: seq<StreamState>, events: seq<Event>, n: nat)
    requires IsRun(states, events) && n < |states|
    ensures StreamInv(states[n])
  {
    if n > 0 {
      RunKeepsInv(states, events, n - 1);
      StepKeepsInv(states[n - 1], events[n - 1]);
    }
  }

  /** The bytes that reached session `id` in the first n steps, and the frames that went out for them. */
  function Received(states: seq<StreamState>, events: seq<Event>, id: nat, n: nat): seq<Byte>
    requires n <= |events| && |states| == |events| + 1
  {
    if n == 0 then []
    else
      Received(states, events, id, n - 1)
      + if events[n - 1].Data? && events[n - 1].id == id && states[n - 1].session.Some? && states[n - 1].session.value.id == id
        then events[n - 1].chunk else []
  }

  function Sent(states: seq<StreamState>, events: seq<Event>, id: nat, n: nat): seq<PacketFraming.Packet>
    requires n <= |events| && |states| == |events| + 1
  {
    if n == 0 then []
    else
      Sent(states, events, id, n - 1)
      + if events[n - 1].Data? && events[n - 1].id == id then FramesSent(states[n - 1], id, events[n - 1].chunk) else []
  }

  /** Each session sends on, in order, exactly the packets its daemon's bytes say; a session that ended in corruption has
      sent a prefix of those before it. */
  lemma {:induction false} SentIsReceived(states: seq<StreamState>, events: seq<Event>, id: nat, n: nat)
    requires IsRun(states, events) && n <= |events|
    ensures var sent, received := Sent(states, events, id, n), Received(states, events, id, n);
            && sent <= ReadStream(received).1.packets
            && (states[n].session.Some? && states[n].session.value.id == id ==> Follows(states[n].parser, sent, received))
            && (states[n].nextSession <= id ==> sent == [] && received == [])
  {
    if n > 0 {
      SentIsReceived(states, events, id, n - 1);
      RunKeepsInv(states, events, n - 1);
      var s, e := states[n - 1], events[n - 1];
      var sent, received := Sent(states, events, id, n - 1), Received(states, events, id, n - 1);
      assert states[n] == Step(s, e);
      if s.session.Some? && s.session.value.id == id && e.Data? && e.id == id {
        PushFollows(s.parser, sent, received, e.chunk);
      } else {
        assert sent + [] == sent && received + [] == received;
        NextSession(s, e);
      }
    }
  }

  /** Steps other than data for the current session leave its parser alone; a new session comes with a new parser. */
  lemma NextSession(s: StreamState, e: Event)
    requires StreamInv(s) && CanHappen(s, e)
    ensures var t := Step(s, e);
            && s.nextSession <= t.nextSession
            && (t.session.Some? ==>
                  || (t.session.value.id == s.nextSession && t.parser == NEW_PARSER)
                  || (s.session.Some? && t.session.value.id == s.session.value.id
                      && (t.parser == s.parser || (e.Data? && e.id == s.session.value.id))))
  {
  }

  class Stream {
    var isActive: bool
    var session: Option<Session>
    var parser: Parser
    var hasRestartTimer: bool
    var preambleTimer: Option<nat>
    var connectTimer: Option<nat>
    var restartAttempt: nat
    var terminating: seq<Process>
    var exited: set<Process>
    var nextProcess: nat
    var nextSession: nat
    ghost var launches: map<nat, Phase>
    ghost var bornFor: seq<nat>

    ghost function State(): StreamState
      reads this, parser
    {
      StreamState(isActive, session, parser.State(), hasRestartTimer, preambleTimer, connectTimer, restartAttempt,
                  terminating, exited, launches, bornFor, nextSession)
    }

    ghost predicate Valid()
      reads this, parser
    {
      StreamInv(State()) && nextProcess == |bornFor|
    }

    constructor ()
      ensures Valid() && State() == NEW_STREAM && fresh(parser)
    {
      isActive, session, hasRestartTimer, preambleTimer, connectTimer, restartAttempt := false, None, false, None, None, 0;
      terminating, exited, nextProcess, nextSession, launches, bornFor := [], {}, 0, 0, map[], [];
      parser := new Parser();
    }

    method Begin()
      requires Valid()
      modifies this
      ensures Valid() && State() == Start(old(State()))
    {
      StartKeepsInv(State());
      if isActive { return; }
      isActive := true;
      Launch();
    }

    /** Up to the first wait of the launch. */
    method Launch()
      modifies this
      ensures State() == BeginLaunch(old(State())) && nextProcess == old(nextProcess) && fresh(parser)
    {
      parser := new Parser();
      session := Some(Session(nextSession, None, false));
      launches := launches[nextSession := Pushing];
      nextSession := nextSession + 1;
    }

    method End()
      requires Valid()
      modifies this
      ensures Valid() && State() == Stop(old(State()))
    {
      StartKeepsInv(State());
      isActive := false;
      ClearAllTimers();
      Teardown();
    }

    method ClearAllTimers()
      modifies this`hasRestartTimer, this`connectTimer, this`preambleTimer
      ensures State() == ClearTimers(old(State()))
    {
      hasRestartTimer := false;
      connectTimer := None;
      preambleTimer := None;
    }

    method Teardown()
      modifies this`session, this`terminating
      ensures State() == TeardownSession(old(State()))
    {
      var last := session;
      session := None;
      if last.None? { return; }
      var tracked := last.value.tracked;
      if tracked.None? || tracked.value in exited { return; }
      terminating := terminating + [tracked.value];
    }

    method Restart()
      modifies this`hasRestartTimer, this`connectTimer, this`preambleTimer, this`session, this`terminating, this`restartAttempt
      ensures State() == ScheduleRestart(old(State()))
    {
      if !isActive || hasRestartTimer { return; }
      ClearAllTimers();
      Teardown();
      restartAttempt := restartAttempt + 1;
      hasRestartTimer := true;
    }

    predicate IsStale(id: nat)
      reads this
    {
      !isActive || session.None? || session.value.id != id
    }

    method OnPushed(id: nat, isPushed: bool, isSpawned: bool)
      requires Valid() && id in launches && launches[id].Pushing?
      modifies this
      ensures Valid() && State() == EndPush(old(State()), id, isPushed, isSpawned)
    {
      LaunchKeepsInv(State(), id, isPushed, isSpawned);
      if IsStale(id) {
        launches := launches - {id};
        return;
      }
      if !isPushed || !isSpawned {
        launches := launches - {id};
        Restart();
        return;
      }
      session := Some(session.value.(tracked := Some(nextProcess)));
      nextProcess := nextProcess + 1;
      bornFor := bornFor + [id];
      launches := launches[id := Forwarding];
    }

    method OnForwarded(id: nat, isForwarded: bool)
      requires Valid() && id in launches && launches[id].Forwarding?
      modifies this
      ensures Valid() && State() == EndForward(old(State()), id, isForwarded)
    {
      LaunchKeepsInv(State(), id, isForwarded, true);
      launches := launches - {id};
      if IsStale(id) { return; }
      if !isForwarded {
        Restart();
        return;
      }
      preambleTimer := Some(id);
      session := Some(session.value.(hasSocket := true));
    }

    method OnChildGone(p: Process, id: nat)
      requires Valid() && p < |bornFor| && id == bornFor[p]
      modifies this
      ensures Valid() && State() == ChildGone(old(State()), p)
    {
      ChildGoneKeepsInv(State(), p);
      exited := exited + {p};
      if IsStale(id) { return; }
      Restart();
    }

    /** Returns the frames handed to the server connection. */
    method OnData(id: nat, chunk: seq<Byte>) returns (frames: seq<MirrorPacket>)
      requires Valid() && CanHappen(State(), Data(id, chunk))
      modifies this, parser
      ensures Valid() && parser == old(parser) && State() == Receive(old(State()), id, chunk)
      ensures var out := FramesSent(old(State()), id, chunk); HaveHeaders(out) && frames == DecodeAll(out)
    {
      hide StreamInv;
      SocketKeepsInv(State(), id, chunk);
      if session.None? || session.value.id != id { return []; }
      var hadPreamble := parser.parsedPreamble.Some?;
      var packets := parser.PushBytes(chunk);
      if packets.None? {
        Restart();
        return [];
      }
      if !hadPreamble && parser.parsedPreamble.Some? {
        restartAttempt := 0;
        preambleTimer := None;
      }
      return packets.value;
    }

    method OnClose(id: nat)
      requires Valid() && CanHappen(State(), Closes(id))
      modifies this
      ensures Valid() && State() == SocketCloses(old(State()), id)
    {
      SocketKeepsInv(State(), id, []);
      if IsStale(id) { return; }
      session := Some(session.value.(hasSocket := false));
      if parser.parsedPreamble.None? {
        connectTimer := Some(id);
        return;
      }
      Restart();
    }

    method OnPreambleTimer()
      requires Valid() && preambleTimer.Some?
      modifies this
      ensures Valid() && State() == PreambleDeadline(old(State()))
    {
      TimersKeepInv(State());
      var id := preambleTimer.value;
      preambleTimer := None;
      if IsStale(id) || parser.parsedPreamble.Some? { return; }
      Restart();
    }

    method OnConnectTimer()
      requires Valid() && connectTimer.Some?
      modifies this
      ensures Valid() && State() == Reconnect(old(State()))
    {
      TimersKeepInv(State());
      var id := connectTimer.value;
      connectTimer := None;
      if IsStale(id) { return; }
      session := Some(session.value.(hasSocket := true));
    }

    method OnRestartTimer()
      requires Valid() && hasRestartTimer
      modifies this
      ensures Valid() && State() == RestartFires(old(State()))
    {
      StartKeepsInv(State());
      hasRestartTimer := false;
      if !isActive { return; }
      Launch();
    }

    /** One round of waiting for termination. */
    method FilterTerminating()
      requires Valid()
      modifies this`terminating
      ensures Valid() && State() == Step(old(State()), Waits)
    {
      StepKeepsInv(State(), Waits);
      terminating := Filter(terminating, exited);
    }
  }
}
