/** When an Android stream restarts and what it does instead, told from its events and the bytes its daemon sent. */
module StreamHistory {
  import opened Common
  import opened Bytes
  import opened Processes
  import opened MirrorPacketParser
  import opened AndroidStream

  ghost predicate IsLive(s: StreamState, id: nat) {
    s.session.Some? && s.session.value.id == id
  }

  /** The preamble stands at the front of the bytes. */
  ghost predicate HasPreamble(bytes: seq<Byte>) {
    ReadPreamble(bytes).Good?
  }

  /** Why event e restarts session id, whose daemon has sent `received` so far: its launch fails; its daemon is gone; what it sends is
      corrupt; its socket closes after the preamble; the preamble is overdue. */
  ghost predicate Restarts(s: StreamState, e: Event, id: nat, received: seq<Byte>)
    requires CanHappen(s, e)
  {
    || (e.PushEnds? && e.id == id && !(e.isPushed && e.isSpawned))
    || (e.ForwardEnds? && e.id == id && !e.isForwarded)
    || (e.ChildEvent? && s.bornFor[e.process] == id)
    || (e.Data? && e.id == id && ReadStream(received + e.chunk).1.isCorrupt)
    || (e.Closes? && e.id == id && HasPreamble(received))
    || e.PreambleTimer?
  }

  /** In every run: an event restarts a live session exactly for these reasons, counting one more attempt; any other event than a stop
      leaves it there, and the attempts are counted anew when the preamble has come. */
  lemma RestartsExactlyWhen(states: seq<StreamState>, events: seq<Event>, n: nat, id: nat)
    requires IsRun(states, events) && n < |events| && IsLive(states[n], id) && !events[n].Stops?
    ensures CanHappen(states[n], events[n])
    ensures var s, t, received := states[n], states[n + 1], Received(states, events, id, n); var e := events[n];
            if Restarts(s, e, id, received) then
              t.session.None? && t.isActive && t.hasRestartTimer && t.restartAttempt == s.restartAttempt + 1
            else
              && IsLive(t, id) && !t.hasRestartTimer
              && t.restartAttempt == (if e.Data? && e.id == id && !HasPreamble(received) && HasPreamble(received + e.chunk) then 0
                                      else s.restartAttempt)
  {
    var received := Received(states, events, id, n);
    RunKeepsInv(states, events, n);
    SentIsReceived(states, events, id, n);
    LiveStep(states[n], events[n], id, Sent(states, events, id, n), received);
  }

  lemma LiveStep(s: StreamState, e: Event, id: nat, sent: seq<PacketFraming.Packet>, received: seq<Byte>)
    requires StreamInv(s) && CanHappen(s, e) && IsLive(s, id) && !e.Stops? && Follows(s.parser, sent, received)
    ensures var t := Step(s, e);
            if Restarts(s, e, id, received) then
              t.session.None? && t.isActive && t.hasRestartTimer && t.restartAttempt == s.restartAttempt + 1
            else
              && IsLive(t, id) && !t.hasRestartTimer
              && t.restartAttempt == (if e.Data? && e.id == id && !HasPreamble(received) && HasPreamble(received + e.chunk) then 0
                                      else s.restartAttempt)
  {
    hide PushChunk, ReadPreamble, Follows;
    FollowsMeans(s.parser, sent, received);
    if e.Data? && e.id == id {
      PushFollows(s.parser, sent, received, e.chunk);
      var (t, out) := PushChunk(s.parser, e.chunk);
      FollowsMeans(t, sent + if out.Some? then out.value else [], received + e.chunk);
      PushChunkEffect(s.parser, e.chunk);
    }
  }

  lemma FollowsMeans(p: ParserState, sent: seq<PacketFraming.Packet>, bytes: seq<Byte>)
    requires Follows(p, sent, bytes)
    ensures (p.preamble.Some? <==> HasPreamble(bytes)) && (p.framing.isPoisoned <==> ReadStream(bytes).1.isCorrupt)
  {
  }

  /** What a live session does next: after the push it forwards, after the forward it connects and waits for the preamble, and until
      that has come a closed socket is only connected again. */
  lemma NextWait(states: seq<StreamState>, events: seq<Event>, n: nat, id: nat)
    requires IsRun(states, events) && n < |events| && IsLive(states[n], id)
    ensures CanHappen(states[n], events[n])
    ensures var s, t, e := states[n], states[n + 1], events[n];
            && (e.PushEnds? && e.id == id && e.isPushed && e.isSpawned ==>
                  IsLive(t, id) && t.session.value.tracked == Some(|s.bornFor|) && t.bornFor == s.bornFor + [id]
                  && id in t.launches && t.launches[id].Forwarding?)
            && (e.ForwardEnds? && e.id == id && e.isForwarded ==>
                  IsLive(t, id) && t.session.value.hasSocket && t.preambleTimer == Some(id))
            && (e.Closes? && e.id == id && !HasPreamble(Received(states, events, id, n)) ==>
                  IsLive(t, id) && !t.session.value.hasSocket && t.connectTimer == Some(id) && t.preambleTimer == Some(id))
            && (e.ConnectTimer? ==> IsLive(t, id) && t.session.value.hasSocket && t.connectTimer.None?)
  {
    RunKeepsInv(states, events, n);
    SentIsReceived(states, events, id, n);
    FollowsMeans(states[n].parser, Sent(states, events, id, n), Received(states, events, id, n));
    hide ReadPreamble, Follows, PushChunk;
  }

  /** A session begins when an idle stream is started and whenever the restart timer fires, with a new parser and a push to come. */
  lemma Begins(states: seq<StreamState>, events: seq<Event>, n: nat)
    requires IsRun(states, events) && n < |events| && ((events[n].Starts? && !states[n].isActive) || events[n].RestartTimer?)
    ensures var s, t := states[n], states[n + 1];
            && IsLive(t, s.nextSession) && t.isActive && t.session.value.tracked.None? && t.parser == NEW_PARSER
            && s.nextSession in t.launches && t.launches[s.nextSession].Pushing? && t.nextSession == s.nextSession + 1
  {
    RunKeepsInv(states, events, n);
  }
}
