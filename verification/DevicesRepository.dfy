/** The device registry and its occupation transitions (packages/server/src/devices/sqlite-devices.repository.ts). */
module DevicesRepository {
  import opened Common

  datatype DeviceInfo = DeviceInfo(name: string, platform: string, osVersion: string, tags: seq<string>)

  datatype Device = Device(
    info: DeviceInfo,
    isOnline: bool,
    agentId: Option<AgentId>,
    occupantId: Option<Generation>,
    occupiedAt: Option<Time>,
    lastHeartbeatAt: Option<Time>,
    lastActivityAt: Option<Time>)

  /** The `devices` table, keyed by its primary key. */
  type Table = map<DeviceId, Device>

  datatype RegisterInput = RegisterInput(id: DeviceId, info: DeviceInfo)

  /** None: not asked for, which an empty string means too. */
  datatype OccupyFilter = OccupyFilter(deviceId: Option<DeviceId>, platform: Option<string>, tags: seq<string>)

  /** Outcome of a release or a renewal. */
  datatype OccupationResult = Done | NotFound | NotOccupied | Forbidden

  datatype EndedOccupation = EndedOccupation(deviceId: DeviceId, occupantId: Generation)

  /** What one statement of the repository does to the table. */

  function Upsert(t: Table, item: RegisterInput, agentId: AgentId, now: Time): Table {
    if item.id in t then
      t[item.id := t[item.id].(info := item.info, isOnline := true, agentId := Some(agentId), lastHeartbeatAt := Some(now))]
    else
      t[item.id := Device(item.info, true, Some(agentId), None, None, Some(now), None)]
  }

  function UpsertMany(t: Table, items: seq<RegisterInput>, agentId: AgentId, now: Time): Table {
    if items == [] then t
    else Upsert(UpsertMany(t, items[..|items| - 1], agentId, now), items[|items| - 1], agentId, now)
  }

  predicate IsCandidate(device: Device, id: DeviceId, filter: OccupyFilter) {
    && device.isOnline && device.occupantId.None?
    && (filter.deviceId.None? || filter.deviceId.value == id)
    && (filter.platform.None? || filter.platform.value == device.info.platform)
    && forall i :: 0 <= i < |filter.tags| ==> filter.tags[i] in device.info.tags
  }

  function Occupy(t: Table, id: DeviceId, occupantId: Generation, now: Time): Table
    requires id in t
  {
    t[id := t[id].(occupantId := Some(occupantId), occupiedAt := Some(now), lastActivityAt := Some(now))]
  }

  /** The guard shared by `release` and `renewOccupation`. */
  function CheckOccupant(t: Table, id: DeviceId, occupantId: Generation): OccupationResult {
    if id !in t then NotFound
    else if t[id].occupantId.None? then NotOccupied
    else if t[id].occupantId.value != occupantId then Forbidden
    else Done
  }

  function Vacated(device: Device): Device {
    device.(occupantId := None, occupiedAt := None, lastActivityAt := None)
  }

  function VacateAll(t: Table, ids: set<DeviceId>): Table {
    map d | d in t :: if d in ids then Vacated(t[d]) else t[d]
  }

  function Renew(t: Table, id: DeviceId, now: Time): Table
    requires id in t
  {
    t[id := t[id].(lastActivityAt := Some(now))]
  }

  function IdleIds(t: Table, cutoff: Time): set<DeviceId> {
    set d | d in t && t[d].occupantId.Some? && (t[d].lastActivityAt.None? || t[d].lastActivityAt.value < cutoff)
  }

  function StaleIds(t: Table, cutoff: Time): set<DeviceId> {
    set d | d in t && (t[d].isOnline || t[d].occupantId.Some?)
            && (t[d].lastHeartbeatAt.None? || t[d].lastHeartbeatAt.value < cutoff)
  }

  function OfflineAll(t: Table, ids: set<DeviceId>): Table {
    map d | d in t :: if d in ids then Vacated(t[d]).(isOnline := false) else t[d]
  }

  function Heartbeat(t: Table, ids: set<DeviceId>, agentId: AgentId, now: Time): Table {
    map d | d in t ::
      if d in ids && t[d].agentId == Some(agentId) then t[d].(lastHeartbeatAt := Some(now), isOnline := true) else t[d]
  }

  function AgentOffline(t: Table, agentId: AgentId): Table {
    map d | d in t :: if t[d].agentId == Some(agentId) then t[d].(isOnline := false, agentId := None) else t[d]
  }

  /** Lookups used by the services: `getById(..).agentId` and `getById(..).occupantId`, absent rows included. */

  function AgentOf(t: Table, d: DeviceId): Option<AgentId> {
    if d in t then t[d].agentId else None
  }

  function OccupantOf(t: Table, d: DeviceId): Option<Generation> {
    if d in t then t[d].occupantId else None
  }

  function OwnedBy(t: Table, agentId: AgentId): set<DeviceId> {
    set d | d in t && t[d].agentId == Some(agentId)
  }

  /** `scan` is some order in which a SELECT may hand out every row of the table. */
  ghost predicate IsScan(scan: seq<DeviceId>, t: Table) {
    && Distinct(scan)
    && forall d :: d in scan <==> d in t
  }

  /** `ended` lists, each once, the occupations that the rows `ids` of `t` carry. */
  ghost predicate Enumerates(ended: seq<EndedOccupation>, t: Table, ids: set<DeviceId>) {
    && (forall i, j :: 0 <= i < j < |ended| ==> ended[i].deviceId != ended[j].deviceId)
    && (forall i :: 0 <= i < |ended| ==> ended[i].deviceId in ids && OccupantOf(t, ended[i].deviceId) == Some(ended[i].occupantId))
    && (forall d :: d in ids && OccupantOf(t, d).Some? ==> EndedOccupation(d, OccupantOf(t, d).value) in ended)
  }

  class SqliteDevicesRepository {
    var rows: Table

    constructor ()
      ensures rows == map[]
    {
      rows := map[];
    }

    method UpsertAll(items: seq<RegisterInput>, agentId: AgentId, now: Time)
      modifies this
      ensures rows == UpsertMany(old(rows), items, agentId, now)
    {
      for i := 0 to |items|
        invariant rows == UpsertMany(old(rows), items[..i], agentId, now)
      {
        assert items[..i + 1][..i] == items[..i];
        rows := Upsert(rows, items[i], agentId, now);
      }
      assert items[..|items|] == items;
    }

    /** The first matching row of the scan gets the occupation; no row matches exactly when nothing is returned. */
    method TryOccupy(scan: seq<DeviceId>, filter: OccupyFilter, occupantId: Generation, now: Time) returns (found: Option<DeviceId>)
      requires IsScan(scan, rows)
      modifies this
      ensures found.None? ==> rows == old(rows) && forall d :: d in rows ==> !IsCandidate(rows[d], d, filter)
      ensures found.Some? ==>
                && found.value in old(rows) && IsCandidate(old(rows)[found.value], found.value, filter)
                && rows == Occupy(old(rows), found.value, occupantId, now)
      ensures found.Some? ==>
                exists k :: 0 <= k < |scan| && scan[k] == found.value &&
                  forall j :: 0 <= j < k ==> !IsCandidate(old(rows)[scan[j]], scan[j], filter)
    {
      for i := 0 to |scan|
        invariant rows == old(rows)
        invariant forall j :: 0 <= j < i ==> !IsCandidate(rows[scan[j]], scan[j], filter)
      {
        if IsCandidate(rows[scan[i]], scan[i], filter) {
          rows := Occupy(rows, scan[i], occupantId, now);
          return Some(scan[i]);
        }
      }
      forall d | d in rows ensures !IsCandidate(rows[d], d, filter) {
        assert d in scan;
      }
      return None;
    }

    method Release(id: DeviceId, occupantId: Generation) returns (result: OccupationResult)
      modifies this
      ensures result == CheckOccupant(old(rows), id, occupantId)
      ensures rows == if result.Done? then VacateAll(old(rows), {id}) else old(rows)
    {
      result := CheckOccupant(rows, id, occupantId);
      if result.Done? {
        rows := rows[id := Vacated(rows[id])];
      }
    }

    method RenewOccupation(id: DeviceId, occupantId: Generation, now: Time) returns (result: OccupationResult)
      modifies this
      ensures result == CheckOccupant(old(rows), id, occupantId)
      ensures rows == if result.Done? then Renew(old(rows), id, now) else old(rows)
    {
      result := CheckOccupant(rows, id, occupantId);
      if result.Done? {
        rows := Renew(rows, id, now);
      }
    }

    method ExpireIdleOccupations(scan: seq<DeviceId>, cutoff: Time) returns (ended: seq<EndedOccupation>)
      requires IsScan(scan, rows)
      modifies this
      ensures rows == VacateAll(old(rows), IdleIds(old(rows), cutoff))
      ensures Enumerates(ended, old(rows), IdleIds(old(rows), cutoff))
    {
      ended := SelectOccupied(scan, IdleIds(rows, cutoff));
      for i := 0 to |ended|
        invariant rows == VacateAll(old(rows), set j | 0 <= j < i :: ended[j].deviceId)
      {
        assert (set j | 0 <= j < i + 1 :: ended[j].deviceId) == (set j | 0 <= j < i :: ended[j].deviceId) + {ended[i].deviceId};
        rows := rows[ended[i].deviceId := Vacated(rows[ended[i].deviceId])];
      }
      var done := set j | 0 <= j < |ended| :: ended[j].deviceId;
      assert done == IdleIds(old(rows), cutoff) by {
        forall d | d in IdleIds(old(rows), cutoff) ensures d in done {
          var k :| 0 <= k < |ended| && ended[k] == EndedOccupation(d, OccupantOf(old(rows), d).value);
        }
      }
    }

    method MarkStaleOffline(scan: seq<DeviceId>, cutoff: Time) returns (ended: seq<EndedOccupation>)
      requires IsScan(scan, rows)
      modifies this
      ensures rows == OfflineAll(old(rows), StaleIds(old(rows), cutoff))
      ensures Enumerates(ended, old(rows), StaleIds(old(rows), cutoff))
    {
      var stale := StaleIds(rows, cutoff);
      ended := SelectOccupied(scan, stale);
      for i := 0 to |scan|
        invariant rows == OfflineAll(old(rows), set j | 0 <= j < i && scan[j] in stale :: scan[j])
      {
        if scan[i] in stale {
          assert (set j | 0 <= j < i + 1 && scan[j] in stale :: scan[j]) == (set j | 0 <= j < i && scan[j] in stale :: scan[j]) + {scan[i]};
          rows := rows[scan[i] := Vacated(rows[scan[i]]).(isOnline := false)];
        } else {
          assert (set j | 0 <= j < i + 1 && scan[j] in stale :: scan[j]) == (set j | 0 <= j < i && scan[j] in stale :: scan[j]);
        }
      }
      assert (set j | 0 <= j < |scan| && scan[j] in stale :: scan[j]) == stale by {
        forall d | d in stale ensures exists j :: 0 <= j < |scan| && scan[j] == d {
          assert d in scan;
        }
      }
    }

    /** The rows of `ids` that carry an occupation, in scan order. */
    method SelectOccupied(scan: seq<DeviceId>, ids: set<DeviceId>) returns (ended: seq<EndedOccupation>)
      requires IsScan(scan, rows) && forall d :: d in ids ==> d in rows
      ensures Enumerates(ended, rows, ids)
    {
      ended := [];
      for i := 0 to |scan|
        invariant forall k :: 0 <= k < |ended| ==>
          ended[k].deviceId in scan[..i] && ended[k].deviceId in ids && OccupantOf(rows, ended[k].deviceId) == Some(ended[k].occupantId)
        invariant forall j, k :: 0 <= j < k < |ended| ==> ended[j].deviceId != ended[k].deviceId
        invariant forall j :: 0 <= j < i && scan[j] in ids && OccupantOf(rows, scan[j]).Some? ==>
          EndedOccupation(scan[j], OccupantOf(rows, scan[j]).value) in ended
      {
        if scan[i] in ids && rows[scan[i]].occupantId.Some? {
          ended := ended + [EndedOccupation(scan[i], rows[scan[i]].occupantId.value)];
        }
      }
    }

    method RecordHeartbeat(ids: seq<DeviceId>, agentId: AgentId, now: Time)
      modifies this
      ensures rows == Heartbeat(old(rows), (set d | d in ids), agentId, now)
    {
      for i := 0 to |ids|
        invariant rows == Heartbeat(old(rows), (set d | d in ids[..i]), agentId, now)
      {
        assert ids[..i + 1] == ids[..i] + [ids[i]];
        if ids[i] in rows && rows[ids[i]].agentId == Some(agentId) {
          rows := rows[ids[i] := rows[ids[i]].(lastHeartbeatAt := Some(now), isOnline := true)];
        }
      }
      assert ids[..|ids|] == ids;
    }

    method MarkAgentOffline(agentId: AgentId)
      modifies this
      ensures rows == AgentOffline(old(rows), agentId)
    {
      rows := AgentOffline(rows, agentId);
    }
  }

  function RegisteredIds(items: seq<RegisterInput>): set<DeviceId> {
    set item | item in items :: item.id
  }

  /** What a registration says about d: the last item that names it. */
  function DescriptionOf(items: seq<RegisterInput>, d: DeviceId): Option<DeviceInfo> {
    if items == [] then None
    else if items[|items| - 1].id == d then Some(items[|items| - 1].info)
    else DescriptionOf(items[..|items| - 1], d)
  }

  /** Registering adds exactly the listed devices, makes the sender their owner and keeps every occupation. */
  lemma {:induction false} UpsertManyAt(t: Table, items: seq<RegisterInput>, agentId: AgentId, now: Time, d: DeviceId)
    ensures var after := UpsertMany(t, items, agentId, now);
      && (d in after <==> d in t || d in RegisteredIds(items))
      && (d in t && d !in RegisteredIds(items) ==> after[d] == t[d])
      && (d in RegisteredIds(items) ==>
           after[d].isOnline && after[d].agentId == Some(agentId) && after[d].lastHeartbeatAt == Some(now))
      && (d in t ==> after[d].occupantId == t[d].occupantId && after[d].occupiedAt == t[d].occupiedAt
                     && after[d].lastActivityAt == t[d].lastActivityAt)
      && (d in after && d !in t ==> after[d].occupantId.None? && after[d].occupiedAt.None? && after[d].lastActivityAt.None?)
      && (d in RegisteredIds(items) <==> DescriptionOf(items, d).Some?)
      && (d in RegisteredIds(items) ==> after[d].info == DescriptionOf(items, d).value)
  {
    if items != [] {
      var init, last := items[..|items| - 1], items[|items| - 1];
      UpsertManyAt(t, init, agentId, now, d);
      assert items == init + [last];
      assert RegisteredIds(items) == RegisteredIds(init) + {last.id} by {
        assert last in items;
        forall item | item in init ensures item in items {}
      }
    }
  }

  /** Losing an agent costs its devices their owner and nothing else: occupations stay, other agents' rows stay, and until
      it registers again none of its devices can be newly occupied. */
  lemma LostAgentKeepsOccupations(t: Table, agentId: AgentId, d: DeviceId, filter: OccupyFilter)
    requires d in t
    ensures var u := AgentOffline(t, agentId);
            && u.Keys == t.Keys && OwnedBy(u, agentId) == {}
            && u[d].occupantId == t[d].occupantId && u[d].occupiedAt == t[d].occupiedAt && u[d].lastActivityAt == t[d].lastActivityAt
            && (if d in OwnedBy(t, agentId) then !IsCandidate(u[d], d, filter) && AgentOf(u, d).None? else u[d] == t[d])
  {
    assert forall x :: x in AgentOffline(t, agentId) <==> x in t;
  }

  /** A renewed occupation is safe from every idle sweep up to its renewal, and is swept by those after it; the renewal
      changes neither occupants nor what the other sweeps take. */
  lemma RenewalProtects(t: Table, id: DeviceId, occupantId: Generation, now: Time, cutoff: Time)
    requires CheckOccupant(t, id, occupantId).Done?
    ensures var u := Renew(t, id, now);
            && CheckOccupant(u, id, occupantId).Done?
            && (forall d :: OccupantOf(u, d) == OccupantOf(t, d))
            && IdleIds(u, cutoff) == (if now < cutoff then IdleIds(t, cutoff) + {id} else IdleIds(t, cutoff) - {id})
            && StaleIds(u, cutoff) == StaleIds(t, cutoff)
  {
    var u := Renew(t, id, now);
    assert forall d :: d in u <==> d in t;
  }

  /** Hearing of a device in a heartbeat of its owner or in a registration protects it from every stale sweep up to that time
      and from no later one; devices not heard of are as stale as before. */
  lemma HearingProtects(t: Table, ids: set<DeviceId>, items: seq<RegisterInput>, a: AgentId, now: Time, d: DeviceId, cutoff: Time)
    ensures var u := Heartbeat(t, ids, a, now);
            if d in ids && AgentOf(t, d) == Some(a) then d in StaleIds(u, cutoff) <==> now < cutoff
            else d in StaleIds(u, cutoff) <==> d in StaleIds(t, cutoff)
    ensures var u := UpsertMany(t, items, a, now);
            if exists item :: item in items && item.id == d then d in StaleIds(u, cutoff) <==> now < cutoff
            else d in StaleIds(u, cutoff) <==> d in StaleIds(t, cutoff)
  {
    UpsertManyAt(t, items, a, now, d);
    assert d in RegisteredIds(items) <==> exists item :: item in items && item.id == d;
  }
}
