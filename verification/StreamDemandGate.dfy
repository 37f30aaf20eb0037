/** The agent's copy of the demand snapshot (packages/agent/src/stream-demand-gate.ts). */
module StreamDemandGate {
  import opened Common

  datatype GateState = GateState(hasSnapshot: bool, demanded: set<DeviceId>)

  const OPEN_GATE := GateState(false, {})

  predicate Passes(g: GateState, d: DeviceId) {
    !g.hasSnapshot || d in g.demanded
  }

  function AfterSnapshot(deviceIds: seq<DeviceId>): GateState {
    GateState(true, set d | d in deviceIds)
  }

  /** What reaches the gate: a snapshot, or the end of the connection. */
  datatype GateEvent = Snapshot(deviceIds: seq<DeviceId>) | Disconnect

  function GateAfter(events: seq<GateEvent>): GateState {
    if events == [] then OPEN_GATE
    else match events[|events| - 1]
      case Snapshot(deviceIds) => AfterSnapshot(deviceIds)
      case Disconnect => OPEN_GATE
  }

  /** The snapshots received on the present connection. */
  function SinceDisconnect(events: seq<GateEvent>): seq<seq<DeviceId>> {
    if events == [] || events[|events| - 1].Disconnect? then []
    else SinceDisconnect(events[..|events| - 1]) + [events[|events| - 1].deviceIds]
  }

  /** Snapshots replace each other and do not outlive the connection: a device's frames pass exactly if no snapshot has
      come on the present connection or the last one lists the device. */
  lemma {:induction false} LastSnapshotDecides(events: seq<GateEvent>, d: DeviceId)
    ensures var snapshots := SinceDisconnect(events);
            Passes(GateAfter(events), d) <==> snapshots == [] || d in snapshots[|snapshots| - 1]
  {
    if events != [] && events[|events| - 1].Snapshot? {
      var last := events[|events| - 1].deviceIds;
      assert SinceDisconnect(events)[|SinceDisconnect(events)| - 1] == last;
    }
  }

  class Gate {
    var hasSnapshot: bool
    var demanded: set<DeviceId>

    function State(): GateState
      reads this
    {
      GateState(hasSnapshot, demanded)
    }

    constructor ()
      ensures State() == OPEN_GATE
    {
      hasSnapshot, demanded := false, {};
    }

    method Apply(deviceIds: seq<DeviceId>)
      modifies this
      ensures State() == AfterSnapshot(deviceIds)
    {
      hasSnapshot := true;
      demanded := set d | d in deviceIds;
    }

    method Reset()
      modifies this
      ensures State() == OPEN_GATE
    {
      hasSnapshot, demanded := false, {};
    }

    method ShouldSend(d: DeviceId) returns (send: bool)
      ensures send <==> Passes(State(), d)
    {
      if !hasSnapshot { return true; }
      return d in demanded;
    }
  }
}
