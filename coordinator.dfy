/**
 * `FermaxDataUpdateCoordinator`: the object that owns the cache of last-known-good
 * device records (`_devices`), runs the refresh cycle against the client and opens
 * doors for the button entities. Its methods are proved to do what the functions of
 * `RefreshMerge` say, and the cache and published data are proved to stay in step.
 */
module FermaxCoordinator {
  import opened Wrappers
  import opened Payloads
  import opened TokenSession
  import opened FermaxApi
  import opened RefreshMerge

  /** The relay coordinates an open-door command is sent with. */
  datatype Relay = Relay(block: int, subblock: int, number: int)

  /** The `ValueError`s `async_open_door` raises before anything is sent. */
  datatype DoorError =
    | DeviceNotFound(deviceId: string)
    | DoorNotFound(doorKey: string, deviceId: string)
    | InvalidDoorConfig(doorKey: string)

  /** How `async_open_door` can fail: rejected locally, or by the client call. */
  datatype OpenFailure = Rejected(reason: DoorError) | ClientFailed(error: Error)

  /** All three coordinates present; a coordinate equal to 0 counts as present. */
  predicate Complete(a: AccessId) {
    a.block.Some? && a.subblock.Some? && a.number.Some?
  }

  /**
   * The validation part of `async_open_door`: the device is looked up in the cache of
   * every device ever fetched, the door in that device's `accessDoorMap`.
   */
  function ResolveDoor(devices: map<string, DeviceRecord>, deviceId: string, doorKey: string): (r: Result<Relay, DoorError>)
    ensures r == Failure(DeviceNotFound(deviceId)) <==> deviceId !in devices
    ensures r == Failure(DoorNotFound(doorKey, deviceId)) <==>
      deviceId in devices && doorKey !in devices[deviceId].pairing.accessDoorMap
    ensures r.Success? <==>
      deviceId in devices && doorKey in devices[deviceId].pairing.accessDoorMap &&
      Complete(devices[deviceId].pairing.accessDoorMap[doorKey].accessId)
    ensures r.Success? ==>
      var a := devices[deviceId].pairing.accessDoorMap[doorKey].accessId;
      r.value == Relay(a.block.value, a.subblock.value, a.number.value)
    ensures r.Failure? ==>
      r.error == DeviceNotFound(deviceId) || r.error == DoorNotFound(doorKey, deviceId) || r.error == InvalidDoorConfig(doorKey)
  {
    if deviceId !in devices then Failure(DeviceNotFound(deviceId))
    else
      var doors := devices[deviceId].pairing.accessDoorMap;
      if doorKey !in doors then Failure(DoorNotFound(doorKey, deviceId))
      else
        var a := doors[doorKey].accessId;
        if !Complete(a) then Failure(InvalidDoorConfig(doorKey))
        else Success(Relay(a.block.value, a.subblock.value, a.number.value))
  }

  /** A refresh cycle that fails leaves every door resolving exactly as before. */
  lemma FailedCycleKeepsDoors(cache: map<string, DeviceRecord>, pairings: Outcome<seq<Pairing>>, fetch: nat -> DeviceFetch,
                              deviceId: string, doorKey: string)
    requires UpdateCycle(cache, pairings, fetch).result.UpdateFailed?
    ensures ResolveDoor(UpdateCycle(cache, pairings, fetch).cache, deviceId, doorKey) == ResolveDoor(cache, deviceId, doorKey)
  {
    CycleKeepsCache(cache, pairings, fetch);
  }

  /** A device once fetched is never "not found" again, whatever later cycles bring. */
  lemma KnownDeviceStaysKnown(cache: map<string, DeviceRecord>, pairings: Outcome<seq<Pairing>>, fetch: nat -> DeviceFetch,
                              deviceId: string, doorKey: string)
    requires deviceId in cache
    ensures !ResolveDoor(UpdateCycle(cache, pairings, fetch).cache, deviceId, doorKey).Failure? ||
            !ResolveDoor(UpdateCycle(cache, pairings, fetch).cache, deviceId, doorKey).error.DeviceNotFound?
  {
    CycleKeepsCache(cache, pairings, fetch);
  }

  /**
   * Doors are resolved against the cache, not the published data: a device that is no
   * longer paired disappears from the published data but its doors resolve as before.
   */
  lemma UnpairedDeviceStillOpens(cache: map<string, DeviceRecord>, ps: seq<Pairing>, fetch: nat -> DeviceFetch,
                                 deviceId: string, doorKey: string)
    requires forall p :: p in ps ==> p.deviceId != Some(deviceId)
    ensures var c := UpdateCycle(cache, Ok(ps), fetch);
      (c.result.Updated? ==> deviceId !in c.result.devices) &&
      ResolveDoor(c.cache, deviceId, doorKey) == ResolveDoor(cache, deviceId, doorKey)
  {
    var tasks := Requested(ps);
    var ids := DeviceIds(tasks);
    forall i | 0 <= i < |ids| ensures ids[i] != deviceId {
      assert tasks[i] in ps;
    }
    UnpairedDroppedButCached(cache, ids, Gathered(tasks, fetch), deviceId);
  }

  class FermaxDataUpdateCoordinator {
    const client: FermaxClient
    /** `_devices`: the last-known-good record of every device ever fetched. */
    var devices: map<string, DeviceRecord>
    /** The `devices` entry of the base class's `data`; `None` before the first success. */
    var data: Option<map<string, DeviceRecord>>
    /** Refreshes asked for with `async_request_refresh`. */
    var refreshRequests: nat

    /** Published records are never empty and always agree with the cache. */
    ghost predicate Valid()
      reads this
    {
      data.Some? ==>
        data.value != map[] &&
        forall id :: id in data.value ==> id in devices && data.value[id] == devices[id]
    }

    constructor (client: FermaxClient)
      ensures this.client == client && devices == map[] && data == None && refreshRequests == 0
      ensures Valid()
    {
      this.client := client;
      devices := map[];
      data := None;
      refreshRequests := 0;
    }

    /** `_async_update_data`. */
    method AsyncUpdateData(now: int, first: Response<seq<Pairing>>, retry: Response<seq<Pairing>>, fetch: nat -> DeviceFetch)
      returns (result: UpdateResult)
      modifies this`devices, client
      ensures var call := CallSpec(client.email, client.password, old(client.Tokens()), old(client.oauthReplies),
                                   now, Pairings, first, retry, RaiseConnectionError);
        && client.Tokens() == call.tokens && client.oauthReplies == call.pending
        && client.requests == old(client.requests) + call.requests
        && Cycle(result, devices) == UpdateCycle(old(devices), call.outcome, fetch)
    {
      var pairings := client.AsyncGetPairings(now, first, retry);
      if pairings.Err? {
        return UpdateFailed(FailureOf(pairings.error));
      }
      var tasks, deviceIds := CollectTasks(pairings.value);
      var devicesData := MergeInto(deviceIds, Gathered(tasks, fetch));
      assert Merge(devicesData, devices) == MergeResults(old(devices), DeviceIds(Requested(pairings.value)), Gathered(Requested(pairings.value), fetch));
      if devicesData == map[] {
        return UpdateFailed(UnexpectedFailure(NoDevicesUpdated));
      }
      return Updated(devicesData);
    }

    /** The first loop of `_async_update_data`: pairings without a device id are skipped. */
    static method CollectTasks(ps: seq<Pairing>) returns (tasks: seq<Pairing>, deviceIds: seq<string>)
      ensures tasks == Requested(ps)
      ensures |deviceIds| == |tasks|
      ensures forall i :: 0 <= i < |tasks| ==> tasks[i].deviceId == Some(deviceIds[i])
      ensures deviceIds == DeviceIds(tasks)
    {
      tasks, deviceIds := [], [];
      for i := 0 to |ps|
        invariant tasks == Requested(ps[..i])
        invariant |deviceIds| == |tasks|
        invariant forall j :: 0 <= j < |tasks| ==> tasks[j].deviceId == Some(deviceIds[j])
      {
        assert ps[..i + 1] == ps[..i] + [ps[i]];
        assert Requested(ps[..i + 1]) == Requested(ps[..i]) + if HasDeviceId(ps[i]) then [ps[i]] else [];
        if HasDeviceId(ps[i]) {
          deviceIds := deviceIds + [ps[i].deviceId.value];
          tasks := tasks + [ps[i]];
        }
      }
      assert ps[..|ps|] == ps;
      assert deviceIds == DeviceIds(tasks);
    }

    /** The second loop of `_async_update_data`, over `zip(device_ids, results)`. */
    method MergeInto(deviceIds: seq<string>, results: seq<Outcome<DeviceRecord>>) returns (devicesData: map<string, DeviceRecord>)
      requires |deviceIds| == |results|
      modifies this`devices
      ensures Merge(devicesData, devices) == MergeResults(old(devices), deviceIds, results)
    {
      devicesData := map[];
      for i := 0 to |deviceIds|
        invariant MergeResults(old(devices), deviceIds[..i], results[..i]) == Merge(devicesData, devices)
      {
        assert deviceIds[..i + 1][..i] == deviceIds[..i];
        assert results[..i + 1][..i] == results[..i];
        var id := deviceIds[i];
        match results[i]
        case Ok(record) =>
          devicesData := devicesData[id := record];
          devices := devices[id := record];
        case Err(_) =>
          if id in devices {
            devicesData := devicesData[id := devices[id]];
          }
      }
      assert deviceIds[..|deviceIds|] == deviceIds && results[..|results|] == results;
    }

    /**
     * The base class's `async_refresh` around `_async_update_data`: a success publishes
     * the merged records, a failure keeps the data published before.
     */
    method AsyncRefresh(now: int, first: Response<seq<Pairing>>, retry: Response<seq<Pairing>>, fetch: nat -> DeviceFetch)
      returns (result: UpdateResult)
      requires Valid()
      modifies this`devices, this`data, client
      ensures Valid()
      ensures var call := CallSpec(client.email, client.password, old(client.Tokens()), old(client.oauthReplies),
                                   now, Pairings, first, retry, RaiseConnectionError);
        && client.Tokens() == call.tokens && client.oauthReplies == call.pending
        && client.requests == old(client.requests) + call.requests
        && Cycle(result, devices) == UpdateCycle(old(devices), call.outcome, fetch)
      ensures data == if result.Updated? then Some(result.devices) else old(data)
    {
      ghost var cache := devices;
      ghost var call := CallSpec(client.email, client.password, client.Tokens(), client.oauthReplies,
                                 now, Pairings, first, retry, RaiseConnectionError);
      result := AsyncUpdateData(now, first, retry, fetch);
      CycleKeepsCache(cache, call.outcome, fetch);
      if result.Updated? {
        PublishedIsCached(cache, call.outcome, fetch);
        data := Some(result.devices);
      }
    }

    /**
     * `async_open_door`: resolve the door from the cache, send the command, and ask for
     * a refresh only when the command went through.
     */
    method AsyncOpenDoor(deviceId: string, doorKey: string, now: int, first: Response<string>, retry: Response<string>)
      returns (failure: Option<OpenFailure>)
      modifies this`refreshRequests, client
      ensures match ResolveDoor(devices, deviceId, doorKey)
        case Failure(e) =>
          failure == Some(Rejected(e)) && unchanged(client) && refreshRequests == old(refreshRequests)
        case Success(relay) =>
          var r := CallSpec(client.email, client.password, old(client.Tokens()), old(client.oauthReplies), now,
                            DirectedOpenDoor(deviceId, relay.block, relay.subblock, relay.number), first, retry, RaiseApiError);
          && client.Tokens() == r.tokens && client.oauthReplies == r.pending
          && client.requests == old(client.requests) + r.requests
          && (r.outcome.Ok? ==> failure.None? && refreshRequests == old(refreshRequests) + 1)
          && (r.outcome.Err? ==> failure == Some(ClientFailed(r.outcome.error)) && refreshRequests == old(refreshRequests))
    {
      var door := ResolveDoor(devices, deviceId, doorKey);
      if door.Failure? {
        return Some(Rejected(door.error));
      }
      var relay := door.value;
      var outcome := client.AsyncOpenDoor(deviceId, relay.block, relay.subblock, relay.number, now, first, retry);
      if outcome.Err? {
        return Some(ClientFailed(outcome.error));
      }
      refreshRequests := refreshRequests + 1;
      return None;
    }

    /**
     * `get_all_devices`: the published records, or none before the first success. In a
     * valid coordinator every record returned is the cached one, so each device listed
     * can be opened, and once data is published the map is never empty.
     */
    function GetAllDevices(): (r: map<string, DeviceRecord>)
      reads this
      ensures data.None? ==> r == map[]
      ensures data.Some? ==> r == data.value
      ensures Valid() ==> forall id :: id in r ==> id in devices && r[id] == devices[id]
      ensures Valid() && data.Some? ==> r != map[]
    {
      if data.None? then map[] else data.value
    }

    /** `get_device_data`: one entry of `GetAllDevices`, if it is there. */
    function GetDeviceData(deviceId: string): (r: Option<DeviceRecord>)
      reads this
      ensures r.Some? <==> deviceId in GetAllDevices()
      ensures r.Some? ==> r.value == GetAllDevices()[deviceId]
    {
      if data.None? || deviceId !in data.value then None else Some(data.value[deviceId])
    }

    /** Every published device can be opened: it is in the cache with the same record. */
    lemma PublishedDeviceIsCached(deviceId: string)
      requires Valid() && GetDeviceData(deviceId).Some?
      ensures deviceId in devices && GetDeviceData(deviceId).value == devices[deviceId]
    {
    }
  }
}
