/** Viewers by device and generation, and the demand boundary (packages/server/src/streams/streams-relay.service.ts). */
module StreamsRelay {
  import opened Common

  type Viewers = map<DeviceId, map<ViewerSocket, Generation>>

  /** One call of the demand listeners; `on` says whether the device had viewers right after the change. */
  datatype Notice = Notice(deviceId: DeviceId, on: bool)

  datatype RelayState = RelayState(viewers: Viewers, notices: seq<Notice>)

  /** The state after the entry of `d` became `inner`; an empty entry is dropped and a 0/1 boundary is notified. */
  function Settle(r: RelayState, d: DeviceId, inner: map<ViewerSocket, Generation>): RelayState {
    var viewers := if inner == map[] then r.viewers - {d} else r.viewers[d := inner];
    RelayState(viewers, if (d in viewers) == (d in r.viewers) then r.notices else r.notices + [Notice(d, d in viewers)])
  }

  function InnerOf(r: RelayState, d: DeviceId): map<ViewerSocket, Generation> {
    if d in r.viewers then r.viewers[d] else map[]
  }

  function AddViewer(r: RelayState, d: DeviceId, occupantId: Generation, socket: ViewerSocket): RelayState {
    Settle(r, d, InnerOf(r, d)[socket := occupantId])
  }

  function RemoveViewer(r: RelayState, d: DeviceId, socket: ViewerSocket): RelayState {
    if d in r.viewers then Settle(r, d, r.viewers[d] - {socket}) else r
  }

  function WithoutGeneration(inner: map<ViewerSocket, Generation>, occupantId: Generation): map<ViewerSocket, Generation> {
    map socket | socket in inner && inner[socket] != occupantId :: inner[socket]
  }

  function CloseViewers(r: RelayState, d: DeviceId, occupantId: Generation): RelayState {
    if d in r.viewers then Settle(r, d, WithoutGeneration(r.viewers[d], occupantId)) else r
  }

  /** The last notice for `d` said on. */
  function LastNotice(notices: seq<Notice>, d: DeviceId): bool {
    if notices == [] then false
    else if notices[|notices| - 1].deviceId == d then notices[|notices| - 1].on
    else LastNotice(notices[..|notices| - 1], d)
  }

  ghost predicate Alternating(notices: seq<Notice>) {
    forall i {:trigger notices[i]} :: 0 <= i < |notices| ==> notices[i].on != LastNotice(notices[..i], notices[i].deviceId)
  }

  /** No inner map is empty; notices alternate per device, and their last word is the current demand. */
  ghost predicate RelayInv(r: RelayState) {
    && (forall d :: d in r.viewers ==> r.viewers[d] != map[])
    && Alternating(r.notices)
    && (forall d :: LastNotice(r.notices, d) == (d in r.viewers))
  }

  lemma SettleKeepsInv(r: RelayState, d: DeviceId, inner: map<ViewerSocket, Generation>)
    requires RelayInv(r)
    ensures RelayInv(Settle(r, d, inner))
  {
    var after := Settle(r, d, inner);
    if after.notices != r.notices {
      assert after.notices[..|r.notices|] == r.notices;
      forall i {:trigger after.notices[i]} | 0 <= i < |after.notices|
        ensures after.notices[i].on != LastNotice(after.notices[..i], after.notices[i].deviceId)
      {
        if i < |r.notices| {
          assert after.notices[..i] == r.notices[..i] && after.notices[i] == r.notices[i];
        }
      }
      forall e ensures LastNotice(after.notices, e) == (e in after.viewers) {
        assert LastNotice(r.notices, e) == (e in r.viewers);
      }
    }
  }

  /** No operation leaves an empty inner map or breaks the alternation. */
  lemma OperationsKeepInv(r: RelayState, d: DeviceId, occupantId: Generation, socket: ViewerSocket)
    requires RelayInv(r)
    ensures RelayInv(AddViewer(r, d, occupantId, socket))
    ensures RelayInv(RemoveViewer(r, d, socket))
    ensures RelayInv(CloseViewers(r, d, occupantId))
  {
    SettleKeepsInv(r, d, InnerOf(r, d)[socket := occupantId]);
    if d in r.viewers {
      SettleKeepsInv(r, d, r.viewers[d] - {socket});
      SettleKeepsInv(r, d, WithoutGeneration(r.viewers[d], occupantId));
    }
  }

  /** Successive notices for a device say opposite things, */
  lemma NoticesAlternate(notices: seq<Notice>, i: nat, j: nat)
    requires Alternating(notices) && i < j < |notices|
    requires notices[i].deviceId == notices[j].deviceId
    requires forall k :: i < k < j ==> notices[k].deviceId != notices[j].deviceId
    ensures notices[i].on != notices[j].on
  {
    LastNoticeAt(notices[..j], i);
  }

  /** and the first one says on. */
  lemma FirstNoticeIsOn(notices: seq<Notice>, j: nat)
    requires Alternating(notices) && j < |notices|
    requires forall i :: 0 <= i < j ==> notices[i].deviceId != notices[j].deviceId
    ensures notices[j].on
  {
    NoNotice(notices[..j], notices[j].deviceId);
  }

  lemma {:induction false} LastNoticeAt(notices: seq<Notice>, i: nat)
    requires i < |notices| && forall k :: i < k < |notices| ==> notices[k].deviceId != notices[i].deviceId
    ensures LastNotice(notices, notices[i].deviceId) == notices[i].on
  {
    if i < |notices| - 1 {
      LastNoticeAt(notices[..|notices| - 1], i);
    }
  }

  lemma {:induction false} NoNotice(notices: seq<Notice>, d: DeviceId)
    requires forall k :: 0 <= k < |notices| ==> notices[k].deviceId != d
    ensures !LastNotice(notices, d)
  {
    if notices != [] {
      NoNotice(notices[..|notices| - 1], d);
    }
  }

  class StreamsRelayService {
    var viewers: Viewers
    ghost var notices: seq<Notice>

    ghost function State(): RelayState
      reads this
    {
      RelayState(viewers, notices)
    }

    constructor ()
      ensures State() == RelayState(map[], [])
    {
      viewers, notices := map[], [];
    }

    /** `changed` says that the demand listeners have to be called, which is the last thing each operation does. */
    method Add(d: DeviceId, occupantId: Generation, socket: ViewerSocket) returns (changed: bool)
      modifies this
      ensures State() == AddViewer(old(State()), d, occupantId, socket)
      ensures changed <==> (d in viewers) != (d in old(viewers))
    {
      if d in viewers {
        var sockets: map<ViewerSocket, Generation> := viewers[d][socket := occupantId];
        assert sockets == InnerOf(State(), d)[socket := occupantId] && socket in sockets;
        viewers := viewers[d := sockets];
        return false;
      }
      var sockets: map<ViewerSocket, Generation> := map[socket := occupantId];
      assert sockets == InnerOf(State(), d)[socket := occupantId] && socket in sockets;
      viewers := viewers[d := sockets];
      notices := notices + [Notice(d, true)];
      return true;
    }

    method Remove(d: DeviceId, socket: ViewerSocket) returns (changed: bool)
      modifies this
      ensures State() == RemoveViewer(old(State()), d, socket)
      ensures changed <==> (d in viewers) != (d in old(viewers))
    {
      if d !in viewers { return false; }
      var sockets := viewers[d] - {socket};
      if sockets != map[] {
        viewers := viewers[d := sockets];
        return false;
      }
      viewers := viewers - {d};
      notices := notices + [Notice(d, false)];
      return true;
    }

    /** Drops the sockets of an ended generation, closing those still open (`open`). */
    method Close(d: DeviceId, occupantId: Generation, open: set<ViewerSocket>) returns (changed: bool, closed: set<ViewerSocket>)
      modifies this
      ensures State() == CloseViewers(old(State()), d, occupantId)
      ensures changed <==> (d in viewers) != (d in old(viewers))
      ensures closed == set s | s in InnerOf(old(State()), d) && InnerOf(old(State()), d)[s] == occupantId && s in open
    {
      closed := {};
      if d !in viewers { return false, closed; }
      var entry, sockets, todo := viewers[d], viewers[d], viewers[d].Keys;
      while todo != {}
        invariant todo <= entry.Keys
        invariant sockets == map s | s in entry && (s in todo || entry[s] != occupantId) :: entry[s]
        invariant closed == set s | s in entry && s !in todo && entry[s] == occupantId && s in open
      {
        var s :| s in todo;
        todo := todo - {s};
        if sockets[s] == occupantId {
          sockets := sockets - {s};
          if s in open {
            closed := closed + {s};
          }
        }
      }
      assert sockets == WithoutGeneration(entry, occupantId);
      if sockets != map[] {
        viewers := viewers[d := sockets];
        return false, closed;
      }
      viewers := viewers - {d};
      notices := notices + [Notice(d, false)];
      return true, closed;
    }

    /** The sockets a frame of `d` is sent to; `writable` are the open ones that are not backed up. */
    method Broadcast(d: DeviceId, writable: set<ViewerSocket>) returns (sent: set<ViewerSocket>)
      ensures sent == InnerOf(State(), d).Keys * writable
    {
      if d !in viewers { return {}; }
      sent := {};
      var todo := viewers[d].Keys;
      while todo != {}
        invariant todo <= viewers[d].Keys
        invariant sent == (viewers[d].Keys - todo) * writable
      {
        var s :| s in todo;
        todo := todo - {s};
        if s in writable {
          sent := sent + {s};
        }
      }
    }
  }
}
