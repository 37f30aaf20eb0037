/** The way back: the outcome that a client gets for a command is the one this very command had at its agent. The results
    travel on the agent's connection, in order, and a result may be lost; registers, heartbeats and frames stay arbitrary. */
module ResultPath {
  import opened Common
  import opened DevicesRepository
  import opened AgentsGateway
  import opened Server
  import opened ServerInvariant
  import opened ServerGuarantees
  import opened Farm
  import opened FarmInvariant
  import opened GhostInput
  import opened Requests
  import Exec = CommandExecutor

  datatype CommandResult = CommandResult(requestId: RequestId, outcome: CommandOutcome)

  /** The results on the way to the server on each connection, oldest first. */
  type Uplinks = map<Connection, seq<CommandResult>>

  /** The error texts are shortened, except the one shared with the server. */
  function Refusal(v: Exec.Verdict): CommandOutcome
    requires !v.Queued?
  {
    match v
    case Unregistered => Answered(false, "no controller registered")
    case NotReady => Answered(false, "controller not ready")
    case QueueFull => Answered(false, "queue full")
  }

  function Conclusion(o: Exec.Outcome): CommandOutcome {
    match o
    case TooLate => Answered(false, "waited too long")
    case OccupationOver => Answered(false, "occupation_ended")
    case FromController(ok, body) => Answered(ok, body)
  }

  /** How the step resolves the promise of the head of a queue, if it does. */
  function Settling(e: Exec.ExecutorState, step: Step): Option<Exec.Outcome> {
    match step
    case QueueTurn(_, d, now) =>
      if Exec.QueueOf(e, d) == [] || Exec.Starts(e, d, now) then None
      else if now - Exec.QueueOf(e, d)[0].enqueuedAt > Exec.QUEUE_STALE_MS then Some(Exec.TooLate)
      else Some(Exec.OccupationOver)
    case ControllerAnswers(_, _, ok, body) => Some(Exec.FromController(ok, body))
    case _ => None
  }

  /** Agent a settles the command r of occupation g at the head of the queue of d with o. */
  ghost predicate Settles(f: Farm, step: Step, a: AgentId, d: DeviceId, g: Generation, r: RequestId, o: Exec.Outcome) {
    && (step.QueueTurn? || step.ControllerAnswers?) && step.agentId == a && step.device == d
    && IsQueued(f, a, d, 0) && EntryAt(f, a, d, 0).requestId == r && EntryAt(f, a, d, 0).occupantId == g
    && Settling(f.agents[a].executor, step) == Some(o)
  }

  /** Agent a does not take the command r that it receives. */
  ghost predicate Refuses(f: Farm, step: Step, a: AgentId, d: DeviceId, g: Generation, r: RequestId, v: Exec.Verdict) {
    && Delivery(f, step, a, d, g, r) && !v.Queued?
    && Exec.VerdictOf(f.agents[a].executor, d, step.isRegistered, step.isReady) == v
  }

  /** Agent a has the outcome of command r. */
  ghost predicate Replies(f: Farm, step: Step, a: AgentId, d: DeviceId, g: Generation, r: RequestId, outcome: CommandOutcome) {
    || (exists v :: Refuses(f, step, a, d, g, r, v) && Refusal(v) == outcome)
    || (exists o :: Settles(f, step, a, d, g, r, o) && Conclusion(o) == outcome)
  }

  /** The step yields the result m, which can be sent on connection c. */
  ghost predicate RepliesOn(f: Farm, step: Step, c: Connection, m: CommandResult) {
    exists a, d, g :: Replies(f, step, a, d, g, m.requestId, m.outcome) && f.agents[a].link == Some(c)
  }

  /** A result the agent has is sent on its connection or lost, one the server receives is the oldest on its connection. */
  ghost predicate UplinkStep(f: Farm, step: Step, up: Uplinks, next: Uplinks) {
    if step.AgentOpens? then next == up[step.c := []]
    else if step.ReceivesResult? then
      step.c in up && up[step.c] != [] && up[step.c][0] == CommandResult(step.requestId, step.outcome) && next == up[step.c := up[step.c][1..]]
    else next == up || exists c, m :: SendsResult(f, step, up, next, c, m)
  }

  ghost predicate SendsResult(f: Farm, step: Step, up: Uplinks, next: Uplinks, c: Connection, m: CommandResult) {
    c in up && RepliesOn(f, step, c, m) && next == up[c := up[c] + [m]]
  }

  ghost predicate IsWiredRun(states: seq<Farm>, steps: seq<Step>, uplinks: seq<Uplinks>) {
    && IsRun(states, steps) && |uplinks| == |states| && uplinks[0] == map[]
    && forall n :: 0 <= n < |steps| ==> UplinkStep(states[n], steps[n], uplinks[n], uplinks[n + 1])
  }

  lemma UplinkCameFrom(f: Farm, step: Step, up: Uplinks, next: Uplinks, c: Connection, i: nat)
    requires UplinkStep(f, step, up, next) && c in next && i < |next[c]|
    ensures || (c in up && next[c][i] in up[c])
            || (exists a, d, g :: Replies(f, step, a, d, g, next[c][i].requestId, next[c][i].outcome))
  {
    hide Replies;
  }

  /** Every result on the way was some agent's reply before. */
  lemma {:induction false} ResultWasReplied(states: seq<Farm>, steps: seq<Step>, uplinks: seq<Uplinks>, n: nat, c: Connection, m: CommandResult)
      returns (p: nat, a: AgentId, d: DeviceId, g: Generation)
    requires IsWiredRun(states, steps, uplinks) && n < |states| && c in uplinks[n] && m in uplinks[n][c]
    ensures p < n && Replies(states[p], steps[p], a, d, g, m.requestId, m.outcome)
  {
    hide Apply, Enabled, UplinkStep, Replies;
    assert n > 0;
    var i :| 0 <= i < |uplinks[n][c]| && uplinks[n][c][i] == m;
    UplinkCameFrom(states[n - 1], steps[n - 1], uplinks[n - 1], uplinks[n], c, i);
    if c in uplinks[n - 1] && m in uplinks[n - 1][c] {
      p, a, d, g := ResultWasReplied(states, steps, uplinks, n - 1, c, m);
    } else {
      p := n - 1;
      a, d, g :| Replies(states[p], steps[p], a, d, g, m.requestId, m.outcome);
    }
  }

  /** What an agent replies to was sent to it. */
  lemma RepliedWasSent(states: seq<Farm>, steps: seq<Step>, p: nat, a: AgentId, d: DeviceId, g: Generation, r: RequestId, outcome: CommandOutcome)
      returns (s: nat, i: nat)
    requires IsRun(states, steps) && p < |steps| && Replies(states[p], steps[p], a, d, g, r, outcome)
    ensures s < i <= p && SentAt(states, steps, s, a, d, g, r) && Delivery(states[i], steps[i], a, d, g, r)
    ensures i < p ==> Takes(states[i], steps[i], a, d, g, r)
    ensures i == p ==> exists v :: Refuses(states[p], steps[p], a, d, g, r, v)
  {
    hide Apply, Enabled, SentAt, Delivery;
    if exists o :: Settles(states[p], steps[p], a, d, g, r, o) {
      i := QueuedWasTaken(states, steps, p, a, d, 0);
    } else {
      i := p;
    }
    s := DeliveredWasSent(states, steps, i, a, d, g, r);
  }

  // A command has one reply

  /** Command r stands at position k of a queue and has no outcome yet. */
  ghost predicate IsOpen(f: Farm, a: AgentId, d: DeviceId, k: nat, r: RequestId) {
    IsQueued(f, a, d, k) && EntryAt(f, a, d, k).requestId == r && EntryAt(f, a, d, k).phase != Exec.Settled
  }

  ghost predicate IsOpenSomewhere(f: Farm, r: RequestId) {
    exists a, d, k: nat :: IsOpen(f, a, d, k, r)
  }

  /** Agent a takes its turn with, or hears the controller about, the head of d's queue. */
  ghost predicate TouchesHead(f: Farm, step: Step, a: AgentId, d: DeviceId) {
    (step.QueueTurn? || step.ControllerAnswers?) && step.agentId == a && step.device == d && IsQueued(f, a, d, 0)
  }

  /** How a step can change the queue of d at agent a: at the head, by dropping the head, by a new entry, or by a restart. */
  ghost predicate Moves(f: Farm, step: Step, a: AgentId, d: DeviceId, next: seq<Exec.Entry>) {
    && a in f.agents
    && var q := Exec.QueueOf(f.agents[a].executor, d);
       if TouchesHead(f, step, a, d) then
         && q[0].phase != Exec.Settled
         && next == [q[0].(phase := if Settling(f.agents[a].executor, step).Some? then Exec.Settled else Exec.Running)] + q[1..]
       else
         || next == q || next == [] || (q != [] && next == q[1..])
         || (|next| == |q| + 1 && next[..|q|] == q && next[|q|].phase == Exec.Waiting
             && Takes(f, step, a, d, next[|q|].occupantId, next[|q|].requestId))
  }

  lemma QueueStep(f: Farm, step: Step, a: AgentId, d: DeviceId)
    requires Enabled(f, step) && a in Apply(f, step).agents
    ensures Moves(f, step, a, d, Exec.QueueOf(Apply(f, step).agents[a].executor, d))
  {
    hide ApplyToServer, Exec.TakeTurn, Exec.Conclude, Exec.CleanUp, Exec.Accept, ServerEnabled;
    if IsOwnStep(step) && step.agentId == a {
      OwnStepMoves(f, step, a, d);
    } else if step.Delivers? && step.agentId == a {
      DeliveryMoves(f, step, d);
    }
  }

  lemma OwnStepMoves(f: Farm, step: Step, a: AgentId, d: DeviceId)
    requires a in f.agents && IsOwnStep(step) && step.agentId == a && OwnEnabled(f.agents[a], step)
    ensures Moves(f, step, a, d, Exec.QueueOf(OwnStep(f.agents[a], step).executor, d))
  {
    hide Takes;
  }

  lemma DeliveryMoves(f: Farm, step: Step, d: DeviceId)
    requires step.Delivers? && Inbox(f, step.agentId) != []
    ensures var after := Receive(f.agents[step.agentId], Inbox(f, step.agentId)[0], step.isRegistered, step.isReady, step.now);
            Moves(f, step, step.agentId, d, Exec.QueueOf(after.executor, d))
  {
    hide Inbox;
    var m := Inbox(f, step.agentId)[0];
    assert step.agentId in f.agents by { HasInbox(f, step.agentId); }
  }

  lemma HasInbox(f: Farm, a: AgentId)
    requires Inbox(f, a) != []
    ensures a in f.agents
  {
  }

  lemma OpenCameFrom(f: Farm, step: Step, a: AgentId, d: DeviceId, k: nat, r: RequestId)
    requires Enabled(f, step) && IsOpen(Apply(f, step), a, d, k, r)
    ensures IsOpen(f, a, d, k, r) || IsOpen(f, a, d, k + 1, r) || Takes(f, step, a, d, EntryAt(Apply(f, step), a, d, k).occupantId, r)
  {
    hide Apply, Enabled, Takes, Settling;
    QueueStep(f, step, a, d);
  }

  lemma SettledIsShut(f: Farm, step: Step, a: AgentId, d: DeviceId, g: Generation, r: RequestId, o: Exec.Outcome)
    requires Enabled(f, step) && Settles(f, step, a, d, g, r, o)
    ensures IsOpen(f, a, d, 0, r) && !IsOpen(Apply(f, step), a, d, 0, r)
  {
    hide ApplyToServer;
  }

  lemma NothingOpenAfterReply(states: seq<Farm>, steps: seq<Step>, p: nat, a: AgentId, d: DeviceId, g: Generation, r: RequestId, outcome: CommandOutcome)
    requires IsRun(states, steps) && p < |steps| && Replies(states[p], steps[p], a, d, g, r, outcome)
    ensures !IsOpenSomewhere(states[p + 1], r)
  {
    if IsOpenSomewhere(states[p + 1], r) {
      var b, e, k: nat :| IsOpen(states[p + 1], b, e, k, r);
      if exists o :: Settles(states[p], steps[p], a, d, g, r, o) {
        var o :| Settles(states[p], steps[p], a, d, g, r, o);
        NotOpenAfterSettling(states, steps, p, a, d, g, r, o, b, e, k);
      } else {
        var v :| Refuses(states[p], steps[p], a, d, g, r, v);
        NotOpenAfterRefusal(states, steps, p, a, d, g, r, v, b, e, k);
      }
    }
  }

  lemma NotOpenAfterSettling(states: seq<Farm>, steps: seq<Step>, p: nat, a: AgentId, d: DeviceId, g: Generation, r: RequestId, o: Exec.Outcome,
                             b: AgentId, e: DeviceId, k: nat)
    requires IsRun(states, steps) && p < |steps| && Settles(states[p], steps[p], a, d, g, r, o)
    ensures !IsOpen(states[p + 1], b, e, k, r)
  {
    hide Apply, Enabled, Settling;
    SettledIsShut(states[p], steps[p], a, d, g, r, o);
    if IsOpen(states[p + 1], b, e, k, r) {
      OpenCameFrom(states[p], steps[p], b, e, k, r);
      if IsOpen(states[p], b, e, k, r) {
        QueuedOnce(states, steps, p, a, d, 0, b, e, k);
      } else {
        QueuedOnce(states, steps, p, a, d, 0, b, e, k + 1);
      }
    }
  }

  lemma NotOpenAfterRefusal(states: seq<Farm>, steps: seq<Step>, p: nat, a: AgentId, d: DeviceId, g: Generation, r: RequestId, v: Exec.Verdict,
                            b: AgentId, e: DeviceId, k: nat)
    requires IsRun(states, steps) && p < |steps| && Refuses(states[p], steps[p], a, d, g, r, v)
    ensures !IsOpen(states[p + 1], b, e, k, r)
  {
    hide Apply, Enabled, Delivery;
    if IsOpen(states[p + 1], b, e, k, r) {
      var g' := EntryAt(states[p + 1], b, e, k).occupantId;
      var i := QueuedWasTaken(states, steps, p + 1, b, e, k);
      DeliveredOnce(states, steps, i, p, b, a, e, d, g', g, r);
      RefusedIsNotTaken(states[p], steps[p], a, d, g, r, v, b, e, g');
    }
  }

  lemma RefusedIsNotTaken(f: Farm, step: Step, a: AgentId, d: DeviceId, g: Generation, r: RequestId, v: Exec.Verdict, b: AgentId, e: DeviceId, h: Generation)
    requires Refuses(f, step, a, d, g, r, v)
    ensures !Takes(f, step, b, e, h, r)
  {
  }

  /** A command that was delivered and is open nowhere does not become open again. */
  lemma {:induction false} StaysShut(states: seq<Farm>, steps: seq<Step>, i: nat, p: nat, n: nat, a: AgentId, d: DeviceId, g: Generation, r: RequestId)
    requires IsRun(states, steps) && i < p <= n < |states| && Delivery(states[i], steps[i], a, d, g, r)
    requires !IsOpenSomewhere(states[p], r)
    ensures !IsOpenSomewhere(states[n], r)
  {
    hide Apply, Enabled, IsOpen, Delivery;
    if p < n {
      StaysShut(states, steps, i, p, n - 1, a, d, g, r);
      if IsOpenSomewhere(states[n], r) {
        var b, e, k: nat :| IsOpen(states[n], b, e, k, r);
        OpenIsQueued(states[n], b, e, k, r);
        OpenCameFrom(states[n - 1], steps[n - 1], b, e, k, r);
        DeliveredOnce(states, steps, i, n - 1, a, b, d, e, g, EntryAt(states[n], b, e, k).occupantId, r);
      }
    }
  }

  lemma OpenIsQueued(f: Farm, a: AgentId, d: DeviceId, k: nat, r: RequestId)
    requires IsOpen(f, a, d, k, r)
    ensures IsQueued(f, a, d, k)
  {
  }

  /** No command is replied to twice. */
  lemma RepliedOnce(states: seq<Farm>, steps: seq<Step>, p: nat, q: nat, a: AgentId, b: AgentId, d: DeviceId, e: DeviceId,
                    g: Generation, h: Generation, r: RequestId, outcome: CommandOutcome, other: CommandOutcome)
    requires IsRun(states, steps) && p < |steps| && q < |steps|
    requires Replies(states[p], steps[p], a, d, g, r, outcome) && Replies(states[q], steps[q], b, e, h, r, other)
    ensures p == q
  {
    hide Replies;
    if p < q { NotRepliedAgain(states, steps, p, q, a, b, d, e, g, h, r, outcome, other); }
    if q < p { NotRepliedAgain(states, steps, q, p, b, a, e, d, h, g, r, other, outcome); }
  }

  /** A command that was replied to is open in no queue any more. */
  lemma RepliedIsShut(states: seq<Farm>, steps: seq<Step>, p: nat, n: nat, a: AgentId, d: DeviceId, g: Generation, r: RequestId,
                      outcome: CommandOutcome)
    requires IsRun(states, steps) && p < n < |states| && p < |steps| && Replies(states[p], steps[p], a, d, g, r, outcome)
    ensures !IsOpenSomewhere(states[n], r)
  {
    hide Apply, Enabled, Delivery, SentAt, Replies, IsOpenSomewhere;
    var s, i := RepliedWasSent(states, steps, p, a, d, g, r, outcome);
    NothingOpenAfterReply(states, steps, p, a, d, g, r, outcome);
    StaysShut(states, steps, i, p + 1, n, a, d, g, r);
  }

  lemma NotRepliedAgain(states: seq<Farm>, steps: seq<Step>, p: nat, q: nat, a: AgentId, b: AgentId, d: DeviceId, e: DeviceId,
                        g: Generation, h: Generation, r: RequestId, outcome: CommandOutcome, other: CommandOutcome)
    requires IsRun(states, steps) && p < q < |steps| && Replies(states[p], steps[p], a, d, g, r, outcome)
    ensures !Replies(states[q], steps[q], b, e, h, r, other)
  {
    hide Apply, Enabled, Delivery, SentAt, Replies, IsOpenSomewhere;
    if Replies(states[q], steps[q], b, e, h, r, other) {
      var s, i := RepliedWasSent(states, steps, p, a, d, g, r, outcome);
      if Delivery(states[q], steps[q], b, e, h, r) { DeliveredOnce(states, steps, i, q, a, b, d, e, g, h, r); }
      RepliedIsShut(states, steps, p, q, a, d, g, r, outcome);
      SecondReplySettles(states[q], steps[q], b, e, h, r, other);
    }
  }

  lemma SecondReplySettles(f: Farm, step: Step, a: AgentId, d: DeviceId, g: Generation, r: RequestId, outcome: CommandOutcome)
    requires Enabled(f, step) && Replies(f, step, a, d, g, r, outcome) && !Delivery(f, step, a, d, g, r)
    ensures IsOpenSomewhere(f, r)
  {
    var o :| Settles(f, step, a, d, g, r, o);
    SettledIsShut(f, step, a, d, g, r, o);
  }

  // What the client gets

  /** The step at which the one answer to a sent command is given. */
  lemma {:induction false} AnsweredAt(states: seq<Farm>, steps: seq<Step>, s: nat, n: nat, a: AgentId, d: DeviceId, g: Generation, r: RequestId)
      returns (k: nat)
    requires IsRun(states, steps) && SentAt(states, steps, s, a, d, g, r) && s < n < |states| && r !in states[n].server.gateway.pending
    ensures s < k < n && r in states[k].server.gateway.pending && r !in states[k + 1].server.gateway.pending
    ensures r in states[k + 1].server.gateway.answers && r in states[n].server.gateway.answers
    ensures states[n].server.gateway.answers[r] == states[k + 1].server.gateway.answers[r]
  {
    hide Apply, Enabled, FarmInv;
    RunInv(states, steps, s);
    SendingIsRecorded(states[s], steps[s], a, d, g, r);
    SentIsKnown(states, steps, s, n - 1, a, d, g, r);
    if r in states[n - 1].server.gateway.pending {
      k := n - 1;
      SentIsKnown(states, steps, s, n, a, d, g, r);
    } else {
      k := AnsweredAt(states, steps, s, n - 1, a, d, g, r);
      AnsweredExactlyOnce(states, steps, k + 1, n, r);
    }
  }

  /** If a client gets an agent's answer to its command, then this is the outcome that this command, and no other, had at the
      agent it was sent to; a success is the answer of the device's controller to this command, which had started before. */
  lemma OutcomeIsItsOwn(states: seq<Farm>, steps: seq<Step>, uplinks: seq<Uplinks>, s: nat, n: nat, a: AgentId, d: DeviceId, g: Generation,
                        r: RequestId, outcome: CommandOutcome)
      returns (p: nat)
    requires IsWiredRun(states, steps, uplinks) && SentAt(states, steps, s, a, d, g, r) && s < n < |states|
    requires r in states[n].server.gateway.answers && states[n].server.gateway.answers[r] == [outcome] && outcome.Answered?
    ensures s < p < n && Replies(states[p], steps[p], a, d, g, r, outcome)
    ensures outcome.ok ==> steps[p] == ControllerAnswers(a, d, true, outcome.body)
    ensures outcome.ok ==> exists q: nat :: s < q < p && StartsRequest(states[q], steps[q], a, d, g, r)
  {
    hide Apply, Enabled, UplinkStep, SentAt, Replies, Settles, StartsRequest;
    p := ReplyOf(states, steps, uplinks, s, n, a, d, g, r, outcome);
    if outcome.ok {
      SuccessIsControllers(states[p], steps[p], a, d, g, r, outcome);
      var q := RunningWasStarted(states, steps, p, a, d);
      var t, i := StartedWasSent(states, steps, q, a, d, g, r);
      SentOnce(states, steps, s, t, a, a, d, d, g, g, r);
    }
  }

  lemma ReplyOf(states: seq<Farm>, steps: seq<Step>, uplinks: seq<Uplinks>, s: nat, n: nat, a: AgentId, d: DeviceId, g: Generation,
                r: RequestId, outcome: CommandOutcome)
      returns (p: nat)
    requires IsWiredRun(states, steps, uplinks) && SentAt(states, steps, s, a, d, g, r) && s < n < |states|
    requires r in states[n].server.gateway.answers && states[n].server.gateway.answers[r] == [outcome] && outcome.Answered?
    ensures s < p < n && Replies(states[p], steps[p], a, d, g, r, outcome)
  {
    hide Apply, Enabled, FarmInv, SentAt, Replies;
    NotPending(states, steps, n, r);
    var k := AnsweredAt(states, steps, s, n, a, d, g, r);
    ResolvedForAReason(states, steps, k, r);
    assert UplinkStep(states[k], steps[k], uplinks[k], uplinks[k + 1]);
    var m := CommandResult(r, outcome);
    var b, e, h;
    p, b, e, h := ResultWasReplied(states, steps, uplinks, k, steps[k].c, m);
    var t, i := RepliedWasSent(states, steps, p, b, e, h, r, outcome);
    SentOnce(states, steps, s, t, a, b, d, e, g, h, r);
  }

  lemma NotPending(states: seq<Farm>, steps: seq<Step>, n: nat, r: RequestId)
    requires IsRun(states, steps) && n < |states| && r in states[n].server.gateway.answers && states[n].server.gateway.answers[r] != []
    ensures r !in states[n].server.gateway.pending
  {
    RunInv(states, steps, n);
  }

  lemma SuccessIsControllers(f: Farm, step: Step, a: AgentId, d: DeviceId, g: Generation, r: RequestId, outcome: CommandOutcome)
    requires Enabled(f, step) && Replies(f, step, a, d, g, r, outcome) && outcome.Answered? && outcome.ok
    ensures step == ControllerAnswers(a, d, true, outcome.body)
    ensures IsRunning(f, a, d) && EntryAt(f, a, d, 0).requestId == r && EntryAt(f, a, d, 0).occupantId == g
  {
  }

  ghost predicate IsRunning(f: Farm, a: AgentId, d: DeviceId) {
    IsQueued(f, a, d, 0) && EntryAt(f, a, d, 0).phase == Exec.Running
  }

  lemma {:induction false} RunningWasStarted(states: seq<Farm>, steps: seq<Step>, n: nat, a: AgentId, d: DeviceId) returns (q: nat)
    requires IsRun(states, steps) && n < |states| && IsRunning(states[n], a, d)
    ensures var x := EntryAt(states[n], a, d, 0); q < n && StartsRequest(states[q], steps[q], a, d, x.occupantId, x.requestId)
  {
    hide Apply, Enabled, StartsRequest, FarmInv;
    assert n > 0 by { NothingRunsAtFirst(states[0], a, d); }
    RunInv(states, steps, n - 1);
    RunningCameFrom(states[n - 1], steps[n - 1], a, d);
    if IsRunning(states[n - 1], a, d) && EntryAt(states[n - 1], a, d, 0) == EntryAt(states[n], a, d, 0) {
      q := RunningWasStarted(states, steps, n - 1, a, d);
    } else {
      q := n - 1;
    }
  }

  lemma NothingRunsAtFirst(f: Farm, a: AgentId, d: DeviceId)
    requires Init(f)
    ensures !IsRunning(f, a, d)
  {
  }

  lemma RunningCameFrom(f: Farm, step: Step, a: AgentId, d: DeviceId)
    requires FarmInv(f) && Enabled(f, step) && IsRunning(Apply(f, step), a, d)
    ensures var x := EntryAt(Apply(f, step), a, d, 0);
            || (IsRunning(f, a, d) && EntryAt(f, a, d, 0) == x)
            || StartsRequest(f, step, a, d, x.occupantId, x.requestId)
  {
    hide Apply, Enabled, FarmInv, Settling, StartsRequest, Takes;
    QueueStep(f, step, a, d);
    OthersWait(f, a, d);
    var q := Exec.QueueOf(f.agents[a].executor, d);
    if TouchesHead(f, step, a, d) {
      TurnStarts(f, step, a, d);
    } else if |q| > 1 {
      assert EntryAt(f, a, d, 1).phase == Exec.Waiting;
    }
  }

  lemma TurnStarts(f: Farm, step: Step, a: AgentId, d: DeviceId)
    requires Enabled(f, step) && TouchesHead(f, step, a, d) && Settling(f.agents[a].executor, step).None?
    ensures StartsRequest(f, step, a, d, EntryAt(f, a, d, 0).occupantId, EntryAt(f, a, d, 0).requestId)
  {
    hide ApplyToServer;
  }

  lemma OthersWait(f: Farm, a: AgentId, d: DeviceId)
    requires FarmInv(f) && a in f.agents
    ensures forall i :: 0 < i < |Exec.QueueOf(f.agents[a].executor, d)| ==> EntryAt(f, a, d, i).phase == Exec.Waiting
  {
    assert AgentInv(f, a) && Exec.QueueInv(f.agents[a].executor, d);
  }

  /** A settled command keeps its outcome in the agent's history: it is the one its promise resolves with. */
  lemma SettlingIsRecorded(f: Farm, step: Step, a: AgentId, d: DeviceId, g: Generation, r: RequestId, o: Exec.Outcome)
    requires FarmInv(f) && Enabled(f, step) && Settles(f, step, a, d, g, r, o)
    ensures var t, e := EntryAt(f, a, d, 0).ticket, Apply(f, step).agents[a].executor;
            t < |e.accepted| && e.accepted[t].requestId == r && e.accepted[t].deviceId == d && e.accepted[t].occupantId == g
            && t < |e.outcomes| && e.outcomes[t] == [o]
  {
    hide ApplyToServer, FarmInv;
    HeadIsUnresolved(f, a, d);
  }

  lemma HeadIsUnresolved(f: Farm, a: AgentId, d: DeviceId)
    requires FarmInv(f) && IsQueued(f, a, d, 0) && EntryAt(f, a, d, 0).phase != Exec.Settled
    ensures var t, e := EntryAt(f, a, d, 0).ticket, f.agents[a].executor;
            && t < |e.accepted| == |e.outcomes| && e.outcomes[t] == []
            && e.accepted[t] == Exec.Accepted(d, EntryAt(f, a, d, 0).requestId, EntryAt(f, a, d, 0).occupantId, EntryAt(f, a, d, 0).enqueuedAt)
  {
    var e := f.agents[a].executor;
    assert AgentInv(f, a) && Exec.QueueInv(e, d) && Exec.EntryInv(e, d, EntryAt(f, a, d, 0));
    assert Exec.HasUnsettled(Exec.QueueOf(e, d), EntryAt(f, a, d, 0).ticket);
    assert Exec.Unfinished(e, EntryAt(f, a, d, 0).ticket);
  }

  // What is refused

  ghost predicate IsNewest(x: Exec.Entry, ticket: nat, r: RequestId, g: Generation, now: Time) {
    x.ticket == ticket && x.requestId == r && x.occupantId == g && x.enqueuedAt == now && x.phase == Exec.Waiting
  }

  /** In every run: a command delivered to an agent that knows a controller for its device, which is ready, joins the end of the
      device's queue if fewer than five stand there, and makes its occupation the remembered one; else it changes nothing. */
  lemma TakenWhenRoom(states: seq<Farm>, steps: seq<Step>, n: nat, a: AgentId, d: DeviceId, g: Generation, r: RequestId)
    requires IsRun(states, steps) && n < |steps| && Delivery(states[n], steps[n], a, d, g, r)
    ensures a in states[n].agents && a in states[n + 1].agents
    ensures var e, after := states[n].agents[a].executor, states[n + 1].agents[a].executor; var q := Exec.QueueOf(e, d);
            if steps[n].isRegistered && steps[n].isReady && |q| < 5 then
              && after.accepted == e.accepted + [Exec.Accepted(d, r, g, steps[n].now)]
              && |Exec.QueueOf(after, d)| == |q| + 1 && Exec.QueueOf(after, d)[..|q|] == q
              && IsNewest(Exec.QueueOf(after, d)[|q|], |e.accepted|, r, g, steps[n].now)
              && (forall x :: x != d ==> Exec.QueueOf(after, x) == Exec.QueueOf(e, x) && Exec.OccupationOf(after, x) == Exec.OccupationOf(e, x))
              && Exec.OccupationOf(after, d) == Some(g) && after.starts == e.starts && after.outcomes == e.outcomes + [[]]
            else after == e
  {
    hide FarmInv;
    RunInv(states, steps, n);
    HasInbox(states[n], a);
    DepthIsLength(states[n], a, d);
  }

  /** and it is answered at once exactly in these three cases, by these refusals. */
  lemma RefusedExactlyWhen(states: seq<Farm>, steps: seq<Step>, n: nat, a: AgentId, d: DeviceId, g: Generation, r: RequestId,
                           outcome: CommandOutcome)
    requires IsRun(states, steps) && n < |steps| && Delivery(states[n], steps[n], a, d, g, r)
    ensures a in states[n].agents
    ensures Replies(states[n], steps[n], a, d, g, r, outcome) <==>
              if !steps[n].isRegistered then outcome == Answered(false, "no controller registered")
              else if !steps[n].isReady then outcome == Answered(false, "controller not ready")
              else |Exec.QueueOf(states[n].agents[a].executor, d)| == 5 && outcome == Answered(false, "queue full")
  {
    hide FarmInv, Apply;
    RunInv(states, steps, n);
    HasInbox(states[n], a);
    DepthIsLength(states[n], a, d);
    var v := Exec.VerdictOf(states[n].agents[a].executor, d, steps[n].isRegistered, steps[n].isReady);
    assert !v.Queued? ==> Refuses(states[n], steps[n], a, d, g, r, v);
  }

  lemma DepthIsLength(f: Farm, a: AgentId, d: DeviceId)
    requires FarmInv(f) && a in f.agents
    ensures Exec.DepthOf(f.agents[a].executor, d) == |Exec.QueueOf(f.agents[a].executor, d)| <= 5
  {
    assert AgentInv(f, a) && Exec.QueueInv(f.agents[a].executor, d);
  }
}
