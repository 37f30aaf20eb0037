/** Per-device serial queues of an agent, with the generation check at dequeue
    (packages/agent/src/command-executor.ts). */
module CommandExecutor {
  import opened Common

  const MAX_QUEUE_DEPTH := 5
  const QUEUE_STALE_MS := 15_000

  /** A link of a device's promise chain. `Waiting` until its `then` callback runs, `Running` while the controller
      has the action, `Settled` once its outcome is known and the clean-up of the link is still to run. */
  datatype Phase = Waiting | Running | Settled
  datatype Entry = Entry(ticket: nat, requestId: RequestId, occupantId: Generation, enqueuedAt: Time, phase: Phase)

  datatype Accepted = Accepted(deviceId: DeviceId, requestId: RequestId, occupantId: Generation, at: Time)
  datatype Start = Start(ticket: nat, at: Time)

  datatype Verdict = Unregistered | NotReady | QueueFull | Queued
  datatype Outcome = TooLate | OccupationOver | FromController(ok: bool, body: string)

  /** The executor's maps, and a history: accepted commands are numbered by tickets in order of acceptance,
      `starts` are the actions handed to controllers, `outcomes[t]` what the promise of ticket t resolved with. */
  datatype ExecutorState = ExecutorState(
    queues: map<DeviceId, seq<Entry>>,
    depths: map<DeviceId, int>,
    occupations: map<DeviceId, Generation>,
    accepted: seq<Accepted>,
    starts: seq<Start>,
    outcomes: seq<seq<Outcome>>)

  const IDLE := ExecutorState(map[], map[], map[], [], [], [])

  function QueueOf(e: ExecutorState, d: DeviceId): seq<Entry> {
    if d in e.queues then e.queues[d] else []
  }

  function DepthOf(e: ExecutorState, d: DeviceId): int {
    if d in e.depths then e.depths[d] else 0
  }

  function OccupationOf(e: ExecutorState, d: DeviceId): Option<Generation> {
    if d in e.occupations then Some(e.occupations[d]) else None
  }

  function VerdictOf(e: ExecutorState, d: DeviceId, isRegistered: bool, isReady: bool): Verdict {
    if !isRegistered then Unregistered
    else if !isReady then NotReady
    else if DepthOf(e, d) >= MAX_QUEUE_DEPTH then QueueFull
    else Queued
  }

  function Accept(e: ExecutorState, d: DeviceId, r: RequestId, occupantId: Generation, now: Time): ExecutorState {
    e.(queues := e.queues[d := QueueOf(e, d) + [Entry(|e.accepted|, r, occupantId, now, Waiting)]],
       depths := e.depths[d := DepthOf(e, d) + 1],
       occupations := e.occupations[d := occupantId],
       accepted := e.accepted + [Accepted(d, r, occupantId, now)],
       outcomes := e.outcomes + [[]])
  }

  predicate HeadIs(e: ExecutorState, d: DeviceId, phase: Phase) {
    QueueOf(e, d) != [] && QueueOf(e, d)[0].phase == phase
  }

  function WithHead(e: ExecutorState, d: DeviceId, phase: Phase): ExecutorState
    requires QueueOf(e, d) != []
  {
    e.(queues := e.queues[d := [QueueOf(e, d)[0].(phase := phase)] + QueueOf(e, d)[1..]])
  }

  /** The head's promise resolves with `outcome`. */
  function Conclude(e: ExecutorState, d: DeviceId, outcome: Outcome): ExecutorState
    requires QueueOf(e, d) != []
  {
    var t := QueueOf(e, d)[0].ticket;
    WithHead(e, d, Settled).(outcomes := if t < |e.outcomes| then e.outcomes[t := e.outcomes[t] + [outcome]] else e.outcomes)
  }

  predicate Starts(e: ExecutorState, d: DeviceId, now: Time) {
    && HeadIs(e, d, Waiting)
    && now - QueueOf(e, d)[0].enqueuedAt <= QUEUE_STALE_MS
    && OccupationOf(e, d) == Some(QueueOf(e, d)[0].occupantId)
  }

  /** The `then` callback of the head: too late, occupation over, or the action goes to the controller. */
  function TakeTurn(e: ExecutorState, d: DeviceId, now: Time): ExecutorState
    requires HeadIs(e, d, Waiting)
  {
    if now - QueueOf(e, d)[0].enqueuedAt > QUEUE_STALE_MS then Conclude(e, d, TooLate)
    else if OccupationOf(e, d) != Some(QueueOf(e, d)[0].occupantId) then Conclude(e, d, OccupationOver)
    else WithHead(e, d, Running).(starts := e.starts + [Start(QueueOf(e, d)[0].ticket, now)])
  }

  /** The `finally` callback of the head. */
  function CleanUp(e: ExecutorState, d: DeviceId): ExecutorState
    requires HeadIs(e, d, Settled)
  {
    e.(queues := e.queues[d := QueueOf(e, d)[1..]],
       depths := e.depths[d := (if d in e.depths then e.depths[d] else 1) - 1])
  }

  function Revoke(e: ExecutorState, d: DeviceId, occupantId: Generation): ExecutorState {
    if OccupationOf(e, d) == Some(occupantId) then e.(occupations := e.occupations - {d}) else e
  }

  function RevokeAll(e: ExecutorState): ExecutorState {
    e.(occupations := map[])
  }

  ghost predicate HasUnsettled(q: seq<Entry>, t: nat) {
    exists i :: 0 <= i < |q| && q[i].ticket == t && q[i].phase != Settled
  }

  /** Ticket t was accepted and its promise is not resolved yet. */
  ghost predicate Unfinished(e: ExecutorState, t: nat) {
    t < |e.accepted| && HasUnsettled(QueueOf(e, e.accepted[t].deviceId), t)
  }

  /** Ticket t is not behind any queued one, and ahead of those still waiting. */
  ghost predicate Precedes(t: nat, q: seq<Entry>) {
    forall i :: 0 <= i < |q| ==> t <= q[i].ticket && (q[i].phase == Waiting ==> t < q[i].ticket)
  }

  ghost predicate EntryInv(e: ExecutorState, d: DeviceId, x: Entry) {
    x.ticket < |e.accepted| && e.accepted[x.ticket] == Accepted(d, x.requestId, x.occupantId, x.enqueuedAt)
  }

  /** A device's queue: its length is the recorded depth, only the head can have left `Waiting`, tickets increase. */
  ghost predicate QueueInv(e: ExecutorState, d: DeviceId) {
    var q := QueueOf(e, d);
    && DepthOf(e, d) == |q| <= MAX_QUEUE_DEPTH
    && (forall i :: 0 <= i < |q| ==> EntryInv(e, d, q[i]))
    && (forall i :: 0 < i < |q| ==> q[i].phase == Waiting)
    && (forall i, j :: 0 <= i < j < |q| ==> q[i].ticket < q[j].ticket)
  }

  /** Everything started was accepted at most 15 s before, and started before every command still waiting. */
  ghost predicate StartInv(e: ExecutorState, s: Start) {
    && s.ticket < |e.accepted| && s.at - e.accepted[s.ticket].at <= QUEUE_STALE_MS
    && Precedes(s.ticket, QueueOf(e, e.accepted[s.ticket].deviceId))
  }

  ghost predicate ExecutorInv(e: ExecutorState) {
    && (forall d :: QueueInv(e, d))
    && (forall k :: 0 <= k < |e.starts| ==> StartInv(e, e.starts[k]))
    && (forall k, l :: 0 <= k < l < |e.starts| && e.accepted[e.starts[k].ticket].deviceId == e.accepted[e.starts[l].ticket].deviceId ==>
          e.starts[k].ticket < e.starts[l].ticket)
    && |e.outcomes| == |e.accepted|
    && (forall t :: 0 <= t < |e.accepted| ==> |e.outcomes[t]| == if Unfinished(e, t) then 0 else 1)
  }

  lemma AcceptKeepsInv(e: ExecutorState, d: DeviceId, r: RequestId, occupantId: Generation, now: Time)
    requires ExecutorInv(e) && DepthOf(e, d) < MAX_QUEUE_DEPTH
    ensures ExecutorInv(Accept(e, d, r, occupantId, now))
  {
    var after := Accept(e, d, r, occupantId, now);
    forall x ensures QueueInv(after, x) {
      assert QueueInv(e, x);
    }
    forall t: nat | t < |after.accepted| ensures |after.outcomes[t]| == if Unfinished(after, t) then 0 else 1 {
      UnfinishedAfterAccept(e, d, r, occupantId, now, t);
    }
    forall k | 0 <= k < |after.starts| ensures StartInv(after, after.starts[k]) {
      assert StartInv(e, e.starts[k]) && QueueInv(e, d);
    }
  }

  lemma UnfinishedAfterAccept(e: ExecutorState, d: DeviceId, r: RequestId, occupantId: Generation, now: Time, t: nat)
    requires ExecutorInv(e) && t <= |e.accepted|
    ensures Unfinished(Accept(e, d, r, occupantId, now), t) <==> Unfinished(e, t) || t == |e.accepted|
  {
    var after := Accept(e, d, r, occupantId, now);
    var q := QueueOf(after, after.accepted[t].deviceId);
    assert QueueInv(e, after.accepted[t].deviceId);
    if t == |e.accepted| {
      assert q[|q| - 1].ticket == t;
    } else if Unfinished(e, t) {
      var p := QueueOf(e, e.accepted[t].deviceId);
      var i :| 0 <= i < |p| && p[i].ticket == t && p[i].phase != Settled;
      assert q[i] == p[i];
    }
  }

  /** Setting the head's phase finishes its ticket if the phase is `Settled` and no other ticket. */
  lemma UnfinishedAfterHead(e: ExecutorState, d: DeviceId, phase: Phase, t: nat)
    requires QueueOf(e, d) != [] && QueueInv(e, d) && QueueOf(e, d)[0].phase != Settled
    ensures Unfinished(WithHead(e, d, phase), t) <==> Unfinished(e, t) && !(t == QueueOf(e, d)[0].ticket && phase == Settled)
  {
    UnsettledAfterHead(QueueOf(e, d), phase, t);
    if t < |e.accepted| && e.accepted[t].deviceId != d {
      var q := QueueOf(e, d);
      forall i | 0 <= i < |q| ensures q[i].ticket != t {
        assert EntryInv(e, d, q[i]);
      }
    }
  }

  lemma UnsettledAfterHead(q: seq<Entry>, phase: Phase, t: nat)
    requires q != [] && q[0].phase != Settled && forall i, j :: 0 <= i < j < |q| ==> q[i].ticket < q[j].ticket
    ensures HasUnsettled([q[0].(phase := phase)] + q[1..], t) <==> HasUnsettled(q, t) && !(t == q[0].ticket && phase == Settled)
  {
    var r := [q[0].(phase := phase)] + q[1..];
    assert forall i :: 0 <= i < |q| ==> r[i] == if i == 0 then q[0].(phase := phase) else q[i];
    if HasUnsettled(q, t) && !(t == q[0].ticket && phase == Settled) {
      var i :| 0 <= i < |q| && q[i].ticket == t && q[i].phase != Settled;
      assert r[i].ticket == t && r[i].phase != Settled;
    }
    if HasUnsettled(r, t) {
      var i :| 0 <= i < |r| && r[i].ticket == t && r[i].phase != Settled;
      assert q[i].ticket == t && q[i].phase != Settled;
    }
  }

  lemma HeadKeepsQueues(e: ExecutorState, d: DeviceId, phase: Phase)
    requires ExecutorInv(e) && QueueOf(e, d) != [] && phase != Waiting
    ensures forall x :: QueueInv(WithHead(e, d, phase), x)
    ensures forall k :: 0 <= k < |e.starts| ==> StartInv(WithHead(e, d, phase), e.starts[k])
  {
    var after := WithHead(e, d, phase);
    forall x ensures QueueInv(after, x) {
      assert QueueInv(e, x);
      if x == d {
        assert forall i :: 0 <= i < |QueueOf(e, d)| ==> EntryInv(e, d, QueueOf(e, d)[i]);
        assert EntryInv(e, d, QueueOf(e, d)[0]);
      }
    }
    forall k | 0 <= k < |e.starts| ensures StartInv(after, e.starts[k]) {
      assert StartInv(e, e.starts[k]);
    }
  }

  lemma ConcludeKeepsInv(e: ExecutorState, d: DeviceId, outcome: Outcome)
    requires ExecutorInv(e) && QueueOf(e, d) != [] && QueueOf(e, d)[0].phase != Settled
    ensures ExecutorInv(Conclude(e, d, outcome))
  {
    var after, headed := Conclude(e, d, outcome), WithHead(e, d, Settled);
    HeadKeepsQueues(e, d, Settled);
    assert QueueInv(e, d);
    var t0 := QueueOf(e, d)[0].ticket;
    assert EntryInv(e, d, QueueOf(e, d)[0]) && Unfinished(e, t0);
    forall x ensures QueueInv(after, x) {
      assert QueueInv(headed, x);
    }
    forall k | 0 <= k < |after.starts| ensures StartInv(after, after.starts[k]) {
      assert StartInv(headed, e.starts[k]);
    }
    forall t: nat | t < |after.accepted| ensures |after.outcomes[t]| == if Unfinished(after, t) then 0 else 1 {
      UnfinishedAfterHead(e, d, Settled, t);
      assert Unfinished(after, t) <==> Unfinished(headed, t);
    }
  }

  lemma StartKeepsInv(e: ExecutorState, d: DeviceId, now: Time)
    requires ExecutorInv(e) && Starts(e, d, now)
    ensures ExecutorInv(TakeTurn(e, d, now))
  {
    var after, headed := TakeTurn(e, d, now), WithHead(e, d, Running);
    var q := QueueOf(e, d);
    HeadKeepsQueues(e, d, Running);
    assert QueueInv(e, d) && EntryInv(e, d, q[0]);
    forall x ensures QueueInv(after, x) {
      assert QueueInv(headed, x);
    }
    forall k | 0 <= k < |after.starts| ensures StartInv(after, after.starts[k]) {
      if k < |e.starts| { assert StartInv(headed, e.starts[k]); }
    }
    forall k | 0 <= k < |e.starts| && e.accepted[e.starts[k].ticket].deviceId == d ensures e.starts[k].ticket < q[0].ticket {
      assert StartInv(e, e.starts[k]);
    }
    forall t: nat | t < |after.accepted| ensures |after.outcomes[t]| == if Unfinished(after, t) then 0 else 1 {
      UnfinishedAfterHead(e, d, Running, t);
      assert Unfinished(after, t) <==> Unfinished(headed, t);
    }
  }

  lemma TakeTurnKeepsInv(e: ExecutorState, d: DeviceId, now: Time)
    requires ExecutorInv(e) && HeadIs(e, d, Waiting)
    ensures ExecutorInv(TakeTurn(e, d, now))
  {
    if Starts(e, d, now) {
      StartKeepsInv(e, d, now);
    } else {
      ConcludeKeepsInv(e, d, TooLate);
      ConcludeKeepsInv(e, d, OccupationOver);
    }
  }

  lemma CleanUpKeepsInv(e: ExecutorState, d: DeviceId)
    requires ExecutorInv(e) && HeadIs(e, d, Settled)
    ensures ExecutorInv(CleanUp(e, d))
  {
    var after := CleanUp(e, d);
    forall x ensures QueueInv(after, x) {
      assert QueueInv(e, x);
      assert forall i :: 0 <= i < |QueueOf(e, x)| ==> EntryInv(e, x, QueueOf(e, x)[i]);
    }
    forall k | 0 <= k < |after.starts| ensures StartInv(after, after.starts[k]) {
      assert StartInv(e, e.starts[k]);
    }
    forall t: nat | t < |after.accepted| ensures Unfinished(after, t) <==> Unfinished(e, t) {
      var p, q := QueueOf(e, e.accepted[t].deviceId), QueueOf(after, e.accepted[t].deviceId);
      if Unfinished(e, t) {
        var i :| 0 <= i < |p| && p[i].ticket == t && p[i].phase != Settled;
        if e.accepted[t].deviceId == d { assert q[i - 1] == p[i]; } else { assert q[i] == p[i]; }
      }
      if Unfinished(after, t) {
        var i :| 0 <= i < |q| && q[i].ticket == t && q[i].phase != Settled;
        if e.accepted[t].deviceId == d { assert p[i + 1] == q[i]; } else { assert p[i] == q[i]; }
      }
    }
  }

  lemma RevokeKeepsInv(e: ExecutorState, occupations: map<DeviceId, Generation>)
    requires ExecutorInv(e)
    ensures ExecutorInv(e.(occupations := occupations))
  {
    var after := e.(occupations := occupations);
    forall x ensures QueueInv(after, x) {
      assert QueueInv(e, x);
      assert forall i :: 0 <= i < |QueueOf(e, x)| ==> EntryInv(e, x, QueueOf(e, x)[i]);
    }
    forall k | 0 <= k < |after.starts| ensures StartInv(after, after.starts[k]) {
      assert StartInv(e, e.starts[k]);
    }
    forall t: nat | t < |after.accepted| ensures Unfinished(after, t) <==> Unfinished(e, t) {}
  }

  /** At any time a device's controller has at most one action: the tickets started and not yet resolved coincide. */
  lemma OneActionAtATime(e: ExecutorState, k: nat, l: nat)
    requires ExecutorInv(e) && k < |e.starts| && l < |e.starts|
    requires StartInv(e, e.starts[k]) && StartInv(e, e.starts[l])
    requires e.accepted[e.starts[k].ticket].deviceId == e.accepted[e.starts[l].ticket].deviceId
    requires e.outcomes[e.starts[k].ticket] == [] && e.outcomes[e.starts[l].ticket] == []
    ensures e.starts[k].ticket == e.starts[l].ticket
    ensures HeadIs(e, e.accepted[e.starts[k].ticket].deviceId, Running)
            && QueueOf(e, e.accepted[e.starts[k].ticket].deviceId)[0].ticket == e.starts[k].ticket
  {
    UnresolvedStartIsHead(e, k);
    UnresolvedStartIsHead(e, l);
  }

  lemma UnresolvedStartIsHead(e: ExecutorState, k: nat)
    requires ExecutorInv(e) && k < |e.starts| && StartInv(e, e.starts[k])
    requires e.outcomes[e.starts[k].ticket] == []
    ensures HeadIs(e, e.accepted[e.starts[k].ticket].deviceId, Running)
    ensures QueueOf(e, e.accepted[e.starts[k].ticket].deviceId)[0].ticket == e.starts[k].ticket
  {
    var t := e.starts[k].ticket;
    var d := e.accepted[t].deviceId;
    assert Unfinished(e, t) && QueueInv(e, d);
    var q := QueueOf(e, d);
    var i :| 0 <= i < |q| && q[i].ticket == t && q[i].phase != Settled;
    if i > 0 { assert q[i].phase == Waiting; }
  }

  class Executor {
    var deviceQueues: map<DeviceId, seq<Entry>>
    var queueDepths: map<DeviceId, int>
    var occupations: map<DeviceId, Generation>
    ghost var accepted: seq<Accepted>
    ghost var starts: seq<Start>
    ghost var outcomes: seq<seq<Outcome>>
    var ticket: nat

    ghost function State(): ExecutorState
      reads this
    {
      ExecutorState(deviceQueues, queueDepths, occupations, accepted, starts, outcomes)
    }

    ghost predicate Valid()
      reads this
    {
      ExecutorInv(State()) && ticket == |accepted|
    }

    constructor ()
      ensures Valid() && State() == IDLE
    {
      deviceQueues, queueDepths, occupations, ticket := map[], map[], map[], 0;
      accepted, starts, outcomes := [], [], [];
    }

    /** `isRegistered` and `isReady` are the endpoint resolver's answers for the command's device. */
    method Execute(d: DeviceId, r: RequestId, occupantId: Generation, isRegistered: bool, isReady: bool, now: Time) returns (verdict: Verdict)
      requires Valid()
      modifies this
      ensures Valid()
      ensures verdict == VerdictOf(old(State()), d, isRegistered, isReady)
      ensures State() == if verdict.Queued? then Accept(old(State()), d, r, occupantId, now) else old(State())
    {
      if !isRegistered { return Unregistered; }
      if !isReady { return NotReady; }
      var depth := if d in queueDepths then queueDepths[d] else 0;
      if depth >= MAX_QUEUE_DEPTH { return QueueFull; }
      AcceptKeepsInv(State(), d, r, occupantId, now);
      occupations := occupations[d := occupantId];
      queueDepths := queueDepths[d := depth + 1];
      var previous := if d in deviceQueues then deviceQueues[d] else [];
      deviceQueues := deviceQueues[d := previous + [Entry(ticket, r, occupantId, now, Waiting)]];
      ticket := ticket + 1;
      accepted, outcomes := accepted + [Accepted(d, r, occupantId, now)], outcomes + [[]];
      return Queued;
    }

    /** The head's `then` callback; `started` says that the controller gets the action. */
    method Turn(d: DeviceId, now: Time) returns (started: bool)
      requires Valid() && HeadIs(State(), d, Waiting)
      modifies this
      ensures Valid()
      ensures started <==> Starts(old(State()), d, now)
      ensures State() == TakeTurn(old(State()), d, now)
    {
      assert QueueInv(State(), d) && EntryInv(State(), d, QueueOf(State(), d)[0]);
      TakeTurnKeepsInv(State(), d, now);
      var head := deviceQueues[d][0];
      if now - head.enqueuedAt > QUEUE_STALE_MS {
        Settle(d, TooLate);
        return false;
      }
      if d !in occupations || occupations[d] != head.occupantId {
        Settle(d, OccupationOver);
        return false;
      }
      deviceQueues := deviceQueues[d := [head.(phase := Running)] + deviceQueues[d][1..]];
      starts := starts + [Start(head.ticket, now)];
      return true;
    }

    method Settle(d: DeviceId, outcome: Outcome)
      requires d in deviceQueues && deviceQueues[d] != [] && deviceQueues[d][0].ticket < |outcomes|
      modifies this`deviceQueues, this`outcomes
      ensures State() == Conclude(old(State()), d, outcome)
    {
      var head := deviceQueues[d][0];
      deviceQueues := deviceQueues[d := [head.(phase := Settled)] + deviceQueues[d][1..]];
      outcomes := outcomes[head.ticket := outcomes[head.ticket] + [outcome]];
    }

    method ControllerAnswers(d: DeviceId, ok: bool, body: string)
      requires Valid() && HeadIs(State(), d, Running)
      modifies this
      ensures Valid()
      ensures State() == Conclude(old(State()), d, FromController(ok, body))
    {
      assert QueueInv(State(), d) && EntryInv(State(), d, QueueOf(State(), d)[0]);
      ConcludeKeepsInv(State(), d, FromController(ok, body));
      Settle(d, FromController(ok, body));
    }

    method Finally(d: DeviceId)
      requires Valid() && HeadIs(State(), d, Settled)
      modifies this
      ensures Valid() && State() == CleanUp(old(State()), d)
    {
      CleanUpKeepsInv(State(), d);
      deviceQueues := deviceQueues[d := deviceQueues[d][1..]];
      queueDepths := queueDepths[d := (if d in queueDepths then queueDepths[d] else 1) - 1];
    }

    method RevokeOccupation(d: DeviceId, occupantId: Generation)
      requires Valid()
      modifies this
      ensures Valid() && State() == Revoke(old(State()), d, occupantId)
    {
      RevokeKeepsInv(State(), occupations - {d});
      if d in occupations && occupations[d] == occupantId {
        occupations := occupations - {d};
      }
    }

    method RevokeAllOccupations()
      requires Valid()
      modifies this
      ensures Valid() && State() == RevokeAll(old(State()))
    {
      RevokeKeepsInv(State(), map[]);
      occupations := map[];
    }
  }
}
