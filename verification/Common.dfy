/** Identifiers and small datatypes shared by the server and the agent models. */
module Common {

  datatype Option<+T> = None | Some(value: T)

  datatype DeviceId = DeviceId(udid: string)
  datatype AgentId = AgentId(name: string)

  /** An `occupantId`. The program draws it with randomUUID and only ever compares it for equality; here the
      n-th occupation of a run gets the number n, which is one way of being fresh. */
  type Generation = nat

  /** A `requestId`, an agent's WebSocket and a viewer's WebSocket: names compared for equality only. */
  type RequestId = nat
  type Connection = nat
  type ViewerSocket = nat

  /** Milliseconds since the epoch. */
  type Time = int

  ghost predicate Distinct<T(!new)>(s: seq<T>) {
    forall i, j :: 0 <= i < j < |s| ==> s[i] != s[j]
  }
}
