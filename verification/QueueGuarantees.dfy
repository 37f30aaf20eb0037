/** What an agent's command queues promise in every state of every run. */
module QueueGuarantees {
  import opened Common
  import opened Farm
  import opened FarmInvariant
  import Exec = CommandExecutor

  /** The recorded depth is the queue's length, never above the limit; the queue holds, in order of acceptance, exactly
      the device's unresolved commands, behind at most one resolved one whose clean-up is still to run. */
  lemma QueueHoldsUnresolved(states: seq<Farm>, steps: seq<Step>, n: nat, a: AgentId, d: DeviceId)
    requires IsRun(states, steps) && n < |states| && a in states[n].agents
    ensures var e := states[n].agents[a].executor; var q := Exec.QueueOf(e, d);
      && Exec.DepthOf(e, d) == |q| <= 5
      && |e.outcomes| == |e.accepted|
      && (forall i, j :: 0 <= i < j < |q| ==> q[i].ticket < q[j].ticket)
      && (forall i :: 0 <= i < |q| ==> q[i].ticket < |e.accepted| && e.accepted[q[i].ticket].deviceId == d
                                       && (i > 0 ==> e.outcomes[q[i].ticket] == []))
      && (forall t :: 0 <= t < |e.accepted| && e.accepted[t].deviceId == d && e.outcomes[t] == [] ==>
            exists i :: 0 <= i < |q| && q[i].ticket == t)
  {
    RunInv(states, steps, n);
    assert AgentInv(states[n], a);
    var e := states[n].agents[a].executor;
    var q := Exec.QueueOf(e, d);
    assert Exec.QueueInv(e, d);
    forall i | 0 <= i < |q| ensures q[i].ticket < |e.accepted| && e.accepted[q[i].ticket].deviceId == d
                                    && (i > 0 ==> e.outcomes[q[i].ticket] == [])
    {
      assert Exec.EntryInv(e, d, q[i]);
      if i > 0 { assert Exec.HasUnsettled(q, q[i].ticket); }
    }
    forall t | 0 <= t < |e.accepted| && e.accepted[t].deviceId == d && e.outcomes[t] == []
      ensures exists i :: 0 <= i < |q| && q[i].ticket == t
    {
      assert Exec.Unfinished(e, t);
    }
  }

  /** A device's commands start in order of acceptance, each at most once and at most 15 s after it was accepted, and
      one only after the previous one was resolved. */
  lemma StartsFollowAcceptance(states: seq<Farm>, steps: seq<Step>, n: nat, a: AgentId, k: nat, l: nat)
    requires IsRun(states, steps) && n < |states| && a in states[n].agents
    requires k < l < |states[n].agents[a].executor.starts|
    ensures var e := states[n].agents[a].executor; var s, t := e.starts[k].ticket, e.starts[l].ticket;
      && |e.outcomes| == |e.accepted| && s < |e.accepted| && t < |e.accepted|
      && e.starts[k].at - e.accepted[s].at <= Exec.QUEUE_STALE_MS && e.starts[l].at - e.accepted[t].at <= Exec.QUEUE_STALE_MS
      && (e.accepted[s].deviceId == e.accepted[t].deviceId ==> s < t && |e.outcomes[s]| == 1)
  {
    RunInv(states, steps, n);
    assert AgentInv(states[n], a);
    var e := states[n].agents[a].executor;
    assert Exec.StartInv(e, e.starts[k]) && Exec.StartInv(e, e.starts[l]);
    if e.accepted[e.starts[k].ticket].deviceId == e.accepted[e.starts[l].ticket].deviceId && e.outcomes[e.starts[k].ticket] == [] {
      Exec.UnresolvedStartIsHead(e, k);
    }
  }

  /** No action starts more than 15 s after its command was accepted. */
  lemma StartsAreTimely(states: seq<Farm>, steps: seq<Step>, n: nat, a: AgentId, k: nat)
    requires IsRun(states, steps) && n < |states| && a in states[n].agents && k < |states[n].agents[a].executor.starts|
    ensures var e := states[n].agents[a].executor; var t := e.starts[k].ticket;
            t < |e.accepted| && e.starts[k].at - e.accepted[t].at <= 15_000
  {
    RunInv(states, steps, n);
    assert AgentInv(states[n], a);
    assert Exec.StartInv(states[n].agents[a].executor, states[n].agents[a].executor.starts[k]);
  }

  /** In every state of every run a device's controller has at most one action: two started and unresolved commands of the
      device are the same one, and it is the running head of the device's queue. */
  lemma OneActionAtATime(states: seq<Farm>, steps: seq<Step>, n: nat, a: AgentId, k: nat, l: nat)
    requires IsRun(states, steps) && n < |states| && a in states[n].agents
    requires k < |states[n].agents[a].executor.starts| && l < |states[n].agents[a].executor.starts|
    ensures var e := states[n].agents[a].executor; var s, t := e.starts[k].ticket, e.starts[l].ticket;
            && |e.outcomes| == |e.accepted| && s < |e.accepted| && t < |e.accepted|
            && var d := e.accepted[s].deviceId;
               (e.accepted[t].deviceId == d && e.outcomes[s] == [] && e.outcomes[t] == [] ==>
                  s == t && Exec.HeadIs(e, d, Exec.Running) && Exec.QueueOf(e, d)[0].ticket == s)
  {
    RunInv(states, steps, n);
    assert AgentInv(states[n], a);
    var e := states[n].agents[a].executor;
    assert Exec.StartInv(e, e.starts[k]) && Exec.StartInv(e, e.starts[l]);
    var s, t := e.starts[k].ticket, e.starts[l].ticket;
    if e.accepted[s].deviceId == e.accepted[t].deviceId && e.outcomes[s] == [] && e.outcomes[t] == [] {
      Exec.OneActionAtATime(e, k, l);
    }
  }
}
