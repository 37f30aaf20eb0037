/** Commands that start although the server has answered them: which ones, and when. */
module AnsweredStarts {
  import opened Common
  import opened DevicesRepository
  import opened AgentsGateway
  import opened Server
  import opened ServerInvariant
  import opened ServerGuarantees
  import opened StreamDemandGate
  import opened Farm
  import opened FarmInvariant
  import opened GhostInput
  import opened Requests
  import opened ResultPath
  import Exec = CommandExecutor

  /** The server sees agent a's registered socket close. */
  ghost predicate LosesAgent(f: Farm, step: Step, a: AgentId) {
    step.ServerSeesClose? && IsCurrent(f.server.gateway, step.c) && f.server.gateway.agentOf[step.c] == a
  }

  /** What makes the server answer command r of agent a without the agent: its timer, or the loss of the agent. */
  ghost predicate GivesUp(f: Farm, step: Step, a: AgentId, r: RequestId) {
    step == CommandTimer(r) || LosesAgent(f, step, a)
  }

  /** After giving up a command is not pending. */
  lemma GivenUpIsAnswered(f: Farm, step: Step, a: AgentId, d: DeviceId, g: Generation, r: RequestId)
    requires FarmInv(f) && Enabled(f, step) && GivesUp(f, step, a, r)
    requires r in f.server.gateway.pending ==> f.server.gateway.pending[r] == PendingCommand(a, d, g)
    ensures r !in Apply(f, step).server.gateway.pending
  {
    hide FarmInv;
  }

  lemma EndedIsAnswered(states: seq<Farm>, steps: seq<Step>, s: nat, n: nat, a: AgentId, d: DeviceId, g: Generation, r: RequestId)
    requires IsRun(states, steps) && SentAt(states, steps, s, a, d, g, r) && s < n < |states| && IsEnded(states[n].server, g)
    ensures r !in states[n].server.gateway.pending
  {
    hide Apply, Enabled, FarmInv, SentAt;
    if r in states[n].server.gateway.pending {
      PendingIsAsSent(states, steps, s, n, a, d, g, r);
      PendingIsCurrent(states, steps, n, r);
      RunInv(states, steps, n);
      ActiveIsNotOver(states[n], d, g);
    }
  }

  lemma ActiveIsNotOver(f: Farm, d: DeviceId, g: Generation)
    requires FarmInv(f) && IsActive(f.server, d, g)
    ensures !IsEnded(f.server, g)
  {
    assert OccupantInv(f.server, d);
  }

  lemma GaveUpStays(states: seq<Farm>, steps: seq<Step>, s: nat, k: nat, n: nat, a: AgentId, d: DeviceId, g: Generation, r: RequestId)
    requires IsRun(states, steps) && SentAt(states, steps, s, a, d, g, r) && s < k < n < |states| && k < |steps|
    requires GivesUp(states[k], steps[k], a, r)
    ensures r !in states[n].server.gateway.pending
  {
    hide Apply, Enabled, FarmInv, SentAt, GivesUp;
    RunInv(states, steps, k);
    if r in states[k].server.gateway.pending { PendingIsAsSent(states, steps, s, k, a, d, g, r); }
    GivenUpIsAnswered(states[k], steps[k], a, d, g, r);
    SentIsKnown(states, steps, s, k + 1, a, d, g, r);
    AnsweredExactlyOnce(states, steps, k + 1, n, r);
  }

  lemma StartedIsOpen(f: Farm, step: Step, a: AgentId, d: DeviceId, g: Generation, r: RequestId)
    requires StartsRequest(f, step, a, d, g, r)
    ensures IsOpenSomewhere(f, r)
  {
    assert IsOpen(f, a, d, 0, r);
  }

  /** A command that starts has no result on the way to the server yet, nor has one arrived. */
  lemma StartedHasNoResult(states: seq<Farm>, steps: seq<Step>, uplinks: seq<Uplinks>, k: nat, n: nat, a: AgentId, d: DeviceId, g: Generation,
                           r: RequestId)
    requires IsWiredRun(states, steps, uplinks) && k <= n < |steps| && StartsRequest(states[n], steps[n], a, d, g, r)
    ensures forall c, m :: c in uplinks[k] && m in uplinks[k][c] ==> m.requestId != r
  {
    hide Apply, Enabled, UplinkStep, Replies, IsOpenSomewhere, StartsRequest;
    StartedIsOpen(states[n], steps[n], a, d, g, r);
    forall c, m | c in uplinks[k] && m in uplinks[k][c] ensures m.requestId != r {
      if m.requestId == r {
        var p, b, e, h := ResultWasReplied(states, steps, uplinks, k, c, m);
        RepliedIsShut(states, steps, p, n, b, e, h, r, m.outcome);
      }
    }
  }

  /** Which commands may start although the server has answered them: command r of occupation g starts at step n on agent a.
      The server has answered it by then exactly if the occupation is over on the server, or since it was sent its 15 s timer
      fired or the server lost the agent. */
  lemma StartedIsAnsweredIff(states: seq<Farm>, steps: seq<Step>, uplinks: seq<Uplinks>, s: nat, n: nat, a: AgentId, d: DeviceId, g: Generation,
                             r: RequestId)
    requires IsWiredRun(states, steps, uplinks) && n < |steps|
    requires SentAt(states, steps, s, a, d, g, r) && StartsRequest(states[n], steps[n], a, d, g, r)
    ensures s < n && r in states[n].server.gateway.answers
    ensures states[n].server.gateway.answers[r] != []
            <==> IsEnded(states[n].server, g) || exists k: nat :: s < k < n && GivesUp(states[k], steps[k], a, r)
  {
    hide Apply, Enabled, FarmInv, UplinkStep, SentAt, StartsRequest, GivesUp, IsEnded;
    var t, i := StartedWasSent(states, steps, n, a, d, g, r);
    SentOnce(states, steps, s, t, a, a, d, d, g, g, r);
    SentIsKnown(states, steps, s, n, a, d, g, r);
    AnsweredExactlyOnce(states, steps, n, n, r);
    if IsEnded(states[n].server, g) {
      EndedIsAnswered(states, steps, s, n, a, d, g, r);
    } else if exists k: nat :: s < k < n && GivesUp(states[k], steps[k], a, r) {
      var k: nat :| s < k < n && GivesUp(states[k], steps[k], a, r);
      GaveUpStays(states, steps, s, k, n, a, d, g, r);
    } else if r !in states[n].server.gateway.pending {
      var k := WhyAnswered(states, steps, uplinks, s, n, a, d, g, r);
    }
  }

  lemma WhyAnswered(states: seq<Farm>, steps: seq<Step>, uplinks: seq<Uplinks>, s: nat, n: nat, a: AgentId, d: DeviceId, g: Generation,
                    r: RequestId)
      returns (k: nat)
    requires IsWiredRun(states, steps, uplinks) && s < n < |steps| && r !in states[n].server.gateway.pending
    requires SentAt(states, steps, s, a, d, g, r) && StartsRequest(states[n], steps[n], a, d, g, r)
    ensures s < k < n && (IsEnded(states[n].server, g) || GivesUp(states[k], steps[k], a, r))
  {
    hide Apply, Enabled, FarmInv, SentAt, StartsRequest, IsEnded;
    k := AnsweredAt(states, steps, s, n, a, d, g, r);
    PendingIsAsSent(states, steps, s, k, a, d, g, r);
    ResolvedForAReason(states, steps, k, r);
    assert UplinkStep(states[k], steps[k], uplinks[k], uplinks[k + 1]);
    StartedHasNoResult(states, steps, uplinks, k, n, a, d, g, r);
    if IsEnded(states[k + 1].server, g) { StaysEnded(states, steps, k + 1, n, g); }
  }

  /** What a lost connection leaves of an agent's queue: after the agent handled the close (or restarted) at step m, a command
      of occupation g whose turn comes in time at step j starts exactly if the agent accepted a command of g after m and
      nothing made it forget g since. So commands queued before m, already answered, come back with the first new command of
      the same occupation. */
  lemma RevivedIff(states: seq<Farm>, steps: seq<Step>, m: nat, j: nat, a: AgentId, d: DeviceId, g: Generation)
    requires IsRun(states, steps) && m < j < |steps| && TimelyTurn(states[j], steps[j], a, d, g)
    requires (steps[m].AgentSeesClose? || steps[m].AgentRestarts?) && steps[m].agentId == a
    ensures StartsCommand(states[j], steps[j], a, d, g) <==> exists i: nat :: m < i && StillHolds(states, steps, i, j, a, d, g)
  {
    hide Apply, Enabled, TimelyTurn, StartsCommand;
    StartsIff(states, steps, j, a, d, g);
    assert Forgets(states[m], steps[m], a, d, g);
    if exists i: nat :: StillHolds(states, steps, i, j, a, d, g) {
      var i: nat :| StillHolds(states, steps, i, j, a, d, g);
      assert m < i;
    }
  }
}
