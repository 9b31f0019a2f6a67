/**
 * Pure specification of one refresh cycle of the Fermax coordinator: which pairings
 * produce a device fetch, how a fetch becomes a device record, and how the outcomes
 * are merged against the cache of last-known-good records.
 *
 * The concurrent fan-out is represented by its result: `fetch(i)` is what the two client
 * calls of the i-th requested device returned, and `asyncio.gather` hands the outcomes
 * back in task order.
 */
module RefreshMerge {
  import opened Wrappers
  import opened Payloads
  import opened TokenSession

  /** What `_update_device` returns: `{info, pairing, services}`. */
  datatype DeviceRecord = DeviceRecord(info: Json, pairing: Pairing, services: seq<string>)

  /** The outcomes of the two client calls `_update_device` makes for one device. */
  datatype DeviceFetch = DeviceFetch(info: Outcome<Json>, services: Outcome<seq<string>>)

  /**
   * `_update_device`: a failure of the device fetch is the device's failure; a failure
   * of the services fetch is demoted to an empty list of services.
   */
  function UpdateDevice(pairing: Pairing, fetch: DeviceFetch): (r: Outcome<DeviceRecord>)
    ensures r.Ok? <==> fetch.info.Ok?
    ensures r.Err? ==> r.error == fetch.info.error
    ensures r.Ok? ==> r.value.info == fetch.info.value && r.value.pairing == pairing
    ensures r.Ok? ==> r.value.services == if fetch.services.Ok? then fetch.services.value else []
  {
    match fetch.info
    case Err(e) => Err(e)
    case Ok(info) =>
      var services := if fetch.services.Ok? then fetch.services.value else [];
      Ok(DeviceRecord(info, pairing, services))
  }

  /** Python truthiness of `pairing.get("deviceId")`. */
  predicate HasDeviceId(p: Pairing) {
    p.deviceId.Some? && p.deviceId.value != ""
  }

  /**
   * The first loop of `_async_update_data`: the pairings that get a fetch, in order;
   * those whose `deviceId` is missing, null or empty are skipped.
   */
  function Requested(pairings: seq<Pairing>): (r: seq<Pairing>)
    ensures |r| <= |pairings|
    ensures forall i :: 0 <= i < |r| ==> HasDeviceId(r[i])
    ensures forall p :: p in r <==> p in pairings && HasDeviceId(p)
  {
    if pairings == [] then []
    else
      var last := pairings[|pairings| - 1];
      assert pairings == pairings[..|pairings| - 1] + [last];
      Requested(pairings[..|pairings| - 1]) + (if HasDeviceId(last) then [last] else [])
  }

  /**
   * `Requested` keeps the pairings' order and multiplicity: filtering a concatenation
   * is concatenating the filtered parts, and one pairing is kept exactly when it has a
   * device id.
   */
  lemma {:induction false} RequestedAppend(a: seq<Pairing>, b: seq<Pairing>)
    ensures Requested(a + b) == Requested(a) + Requested(b)
    decreases |b|
  {
    if b == [] {
      assert a + b == a;
    } else {
      var b' := b[..|b| - 1];
      assert (a + b)[..|a + b| - 1] == a + b';
      RequestedAppend(a, b');
    }
  }

  lemma RequestedSingle(p: Pairing)
    ensures Requested([p]) == if HasDeviceId(p) then [p] else []
  {
    assert [p][..0] == [];
  }

  function DeviceIds(tasks: seq<Pairing>): (ids: seq<string>)
    requires forall i :: 0 <= i < |tasks| ==> HasDeviceId(tasks[i])
    ensures |ids| == |tasks|
    ensures forall i :: 0 <= i < |tasks| ==> tasks[i].deviceId == Some(ids[i]) && ids[i] != ""
  {
    seq(|tasks|, i requires 0 <= i < |tasks| && HasDeviceId(tasks[i]) => tasks[i].deviceId.value)
  }

  /** The results `asyncio.gather` hands back, one per task. */
  function Gathered(tasks: seq<Pairing>, fetch: nat -> DeviceFetch): (results: seq<Outcome<DeviceRecord>>)
    ensures |results| == |tasks|
    ensures forall i :: 0 <= i < |tasks| ==> results[i] == UpdateDevice(tasks[i], fetch(i))
  {
    seq(|tasks|, i requires 0 <= i < |tasks| => UpdateDevice(tasks[i], fetch(i)))
  }

  /** `devices_data` (the merged map) and `_devices` (the cache). */
  datatype Merge = Merge(merged: map<string, DeviceRecord>, cache: map<string, DeviceRecord>)

  /**
   * The second loop of `_async_update_data`, over `zip(device_ids, results)`: a success
   * goes into both maps; a failure copies the cached record, if any, into the merged map.
   */
  function MergeResults(cache: map<string, DeviceRecord>, ids: seq<string>, results: seq<Outcome<DeviceRecord>>): Merge
    requires |ids| == |results|
    decreases |ids|
  {
    if ids == [] then Merge(map[], cache)
    else
      var m := MergeResults(cache, ids[..|ids| - 1], results[..|results| - 1]);
      var id := ids[|ids| - 1];
      match results[|results| - 1]
      case Ok(record) => Merge(m.merged[id := record], m.cache[id := record])
      case Err(_) => if id in m.cache then Merge(m.merged[id := m.cache[id]], m.cache) else m
  }

  /** The records fetched successfully this cycle; for a repeated id the later one. */
  function Fresh(ids: seq<string>, results: seq<Outcome<DeviceRecord>>): map<string, DeviceRecord>
    requires |ids| == |results|
    decreases |ids|
  {
    if ids == [] then map[]
    else
      var f := Fresh(ids[..|ids| - 1], results[..|results| - 1]);
      if results[|results| - 1].Ok? then f[ids[|ids| - 1] := results[|results| - 1].value] else f
  }

  /** `m` restricted to the keys listed in `ids`. */
  function Restrict(m: map<string, DeviceRecord>, ids: seq<string>): (r: map<string, DeviceRecord>)
    ensures forall id :: id in r <==> id in m && id in ids
    ensures forall id :: id in r ==> r[id] == m[id]
  {
    map id | id in m && id in ids :: m[id]
  }

  /**
   * What one cycle does to the two maps: the cache gains this cycle's fresh records and
   * loses nothing; the merged map is the new cache restricted to the requested ids.
   */
  lemma {:induction false} MergeIsRestrictedCache(cache: map<string, DeviceRecord>, ids: seq<string>, results: seq<Outcome<DeviceRecord>>)
    requires |ids| == |results|
    ensures MergeResults(cache, ids, results).cache == cache + Fresh(ids, results)
    ensures MergeResults(cache, ids, results).merged == Restrict(cache + Fresh(ids, results), ids)
    decreases |ids|
  {
    if ids != [] {
      var n := |ids| - 1;
      var ids', results' := ids[..n], results[..n];
      MergeIsRestrictedCache(cache, ids', results');
      var id := ids[n];
      assert ids == ids' + [id];
      var c' := cache + Fresh(ids', results');
      RestrictAppend(c', ids', id);
      match results[n]
      case Ok(record) =>
        assert cache + Fresh(ids, results) == c'[id := record];
        RestrictAppend(c'[id := record], ids', id);
        RestrictUpdate(c', ids', id, record);
      case Err(_) =>
    }
  }

  lemma RestrictAppend(m: map<string, DeviceRecord>, ids: seq<string>, id: string)
    ensures Restrict(m, ids + [id]) == if id in m then Restrict(m, ids)[id := m[id]] else Restrict(m, ids)
  {
    assert forall x :: x in ids + [id] <==> x in ids || x == id;
  }

  lemma RestrictUpdate(m: map<string, DeviceRecord>, ids: seq<string>, id: string, v: DeviceRecord)
    ensures Restrict(m[id := v], ids)[id := v] == Restrict(m, ids)[id := v]
  {
  }

  /** The fetch at `i` succeeded and no later fetch of the same id did. */
  predicate LastSuccess(ids: seq<string>, results: seq<Outcome<DeviceRecord>>, i: int)
    requires |ids| == |results|
  {
    0 <= i < |ids| && results[i].Ok? && forall j :: i < j < |ids| && ids[j] == ids[i] ==> results[j].Err?
  }

  /** The fetch at `i` was for `id` and succeeded. */
  predicate SucceededAt(ids: seq<string>, results: seq<Outcome<DeviceRecord>>, i: int, id: string)
    requires |ids| == |results|
  {
    0 <= i < |ids| && ids[i] == id && results[i].Ok?
  }

  /** `Fresh` has an entry exactly for the ids with at least one successful fetch. */
  lemma {:induction false} FreshDomain(ids: seq<string>, results: seq<Outcome<DeviceRecord>>, id: string)
    requires |ids| == |results|
    ensures id in Fresh(ids, results) <==> exists i :: SucceededAt(ids, results, i, id)
    decreases |ids|
  {
    if ids != [] {
      var n := |ids| - 1;
      var ids', results' := ids[..n], results[..n];
      FreshDomain(ids', results', id);
      if SucceededAt(ids, results, n, id) {
      } else {
        if id in Fresh(ids, results) {
          var i :| SucceededAt(ids', results', i, id);
          assert SucceededAt(ids, results, i, id);
        }
        if exists i :: SucceededAt(ids, results, i, id) {
          var i :| SucceededAt(ids, results, i, id);
          assert SucceededAt(ids', results', i, id);
        }
      }
    }
  }

  /** For an id, `Fresh` holds the record of its last successful fetch. */
  lemma {:induction false} FreshValue(ids: seq<string>, results: seq<Outcome<DeviceRecord>>, i: int)
    requires |ids| == |results| && LastSuccess(ids, results, i)
    ensures ids[i] in Fresh(ids, results) && Fresh(ids, results)[ids[i]] == results[i].value
    decreases |ids|
  {
    var n := |ids| - 1;
    if i < n {
      assert LastSuccess(ids[..n], results[..n], i);
      FreshValue(ids[..n], results[..n], i);
    }
  }

  /**
   * Stale retention: a requested device none of whose fetches succeeded keeps, in the
   * merged map, exactly its cached record, and has no entry if it has none cached; its
   * cache entry, or the lack of one, is left as it was.
   */
  lemma StaleEntryRetained(cache: map<string, DeviceRecord>, ids: seq<string>, results: seq<Outcome<DeviceRecord>>, id: string)
    requires |ids| == |results|
    requires id in ids
    requires forall i :: 0 <= i < |ids| && ids[i] == id ==> results[i].Err?
    ensures var m := MergeResults(cache, ids, results);
      && (id in m.merged <==> id in cache)
      && (id in cache ==> m.merged[id] == cache[id] && id in m.cache && m.cache[id] == cache[id])
      && (id !in cache ==> id !in m.cache)
  {
    MergeIsRestrictedCache(cache, ids, results);
    FreshDomain(ids, results, id);
  }

  /** A device whose last fetch succeeded is published, and cached, with that record. */
  lemma FreshEntryPublished(cache: map<string, DeviceRecord>, ids: seq<string>, results: seq<Outcome<DeviceRecord>>, i: nat)
    requires |ids| == |results| && LastSuccess(ids, results, i)
    ensures var m := MergeResults(cache, ids, results);
      ids[i] in m.merged && m.merged[ids[i]] == results[i].value && ids[i] in m.cache && m.cache[ids[i]] == results[i].value
  {
    MergeIsRestrictedCache(cache, ids, results);
    FreshValue(ids, results, i);
  }

  /**
   * A device that was not requested this cycle has no entry in the merged map, while its
   * cached record, if any, stays in the cache unchanged.
   */
  lemma UnpairedDroppedButCached(cache: map<string, DeviceRecord>, ids: seq<string>, results: seq<Outcome<DeviceRecord>>, id: string)
    requires |ids| == |results|
    requires id !in ids
    ensures var m := MergeResults(cache, ids, results);
      id !in m.merged && (id in m.cache <==> id in cache) && (id in cache ==> m.cache[id] == cache[id])
  {
    MergeIsRestrictedCache(cache, ids, results);
    FreshDomain(ids, results, id);
  }

  /**
   * The kinds of `UpdateFailed` the cycle raises. The "no devices could be updated"
   * failure is raised inside the `try` block and caught again by its last `except`
   * clause, so it surfaces as an unexpected error wrapping it.
   */
  datatype FailureKind = ConnectionFailed | ApiFailed | UnexpectedFailure(cause: Unexpected)

  datatype Unexpected = MalformedReply(field: string) | NoDevicesUpdated

  /** `{"devices": devices_data}`, or the `UpdateFailed` raised instead. */
  datatype UpdateResult = Updated(devices: map<string, DeviceRecord>) | UpdateFailed(kind: FailureKind)

  /**
   * The `except` clauses of `_async_update_data`, in order: `FermaxConnectionError`,
   * then any other `FermaxError`, then any other exception.
   */
  function FailureOf(e: Error): (k: FailureKind)
    ensures k.ConnectionFailed? <==> e.ConnectionError?
    ensures k.ApiFailed? <==> e.AuthError? || e.ApiError?
    ensures k.UnexpectedFailure? <==> e.Malformed?
    ensures k.UnexpectedFailure? ==> k.cause == MalformedReply(e.field)
  {
    match e
    case ConnectionError(_) => ConnectionFailed
    case AuthError(_) => ApiFailed
    case ApiError(_) => ApiFailed
    case Malformed(field) => UnexpectedFailure(MalformedReply(field))
  }

  /** The result of a cycle and the cache it leaves. */
  datatype Cycle = Cycle(result: UpdateResult, cache: map<string, DeviceRecord>)

  /** `_async_update_data` as a function of the cache before the cycle. */
  function UpdateCycle(cache: map<string, DeviceRecord>, pairings: Outcome<seq<Pairing>>, fetch: nat -> DeviceFetch): Cycle
  {
    match pairings
    case Err(e) => Cycle(UpdateFailed(FailureOf(e)), cache)
    case Ok(ps) =>
      var tasks := Requested(ps);
      var m := MergeResults(cache, DeviceIds(tasks), Gathered(tasks, fetch));
      Cycle(if m.merged == map[] then UpdateFailed(UnexpectedFailure(NoDevicesUpdated)) else Updated(m.merged), m.cache)
  }

  /** The cache never loses a device, and a failed cycle leaves it exactly as it was. */
  lemma CycleKeepsCache(cache: map<string, DeviceRecord>, pairings: Outcome<seq<Pairing>>, fetch: nat -> DeviceFetch)
    ensures cache.Keys <= UpdateCycle(cache, pairings, fetch).cache.Keys
    ensures UpdateCycle(cache, pairings, fetch).result.UpdateFailed? ==> UpdateCycle(cache, pairings, fetch).cache == cache
  {
    if pairings.Ok? {
      var tasks := Requested(pairings.value);
      var ids := DeviceIds(tasks);
      var results := Gathered(tasks, fetch);
      MergeIsRestrictedCache(cache, ids, results);
      if UpdateCycle(cache, pairings, fetch).result.UpdateFailed? {
        forall id | id in Fresh(ids, results) ensures id in ids {
          FreshDomain(ids, results, id);
        }
        assert Fresh(ids, results).Keys <= Restrict(cache + Fresh(ids, results), ids).Keys;
        assert Fresh(ids, results) == map[];
      }
    }
  }

  /** A successful cycle publishes at least one device, each with its record in the new cache. */
  lemma PublishedIsCached(cache: map<string, DeviceRecord>, pairings: Outcome<seq<Pairing>>, fetch: nat -> DeviceFetch)
    requires UpdateCycle(cache, pairings, fetch).result.Updated?
    ensures var c := UpdateCycle(cache, pairings, fetch);
      c.result.devices != map[] &&
      forall id :: id in c.result.devices ==> id in c.cache && c.result.devices[id] == c.cache[id]
  {
    var tasks := Requested(pairings.value);
    MergeIsRestrictedCache(cache, DeviceIds(tasks), Gathered(tasks, fetch));
  }

  /** A successful cycle publishes only devices that some pairing of this cycle names. */
  lemma PublishedIsPaired(cache: map<string, DeviceRecord>, pairings: Outcome<seq<Pairing>>, fetch: nat -> DeviceFetch, id: string)
    requires UpdateCycle(cache, pairings, fetch).result.Updated?
    requires id in UpdateCycle(cache, pairings, fetch).result.devices
    ensures id != "" && exists p :: p in pairings.value && p.deviceId == Some(id)
  {
    var tasks := Requested(pairings.value);
    var ids := DeviceIds(tasks);
    MergeIsRestrictedCache(cache, ids, Gathered(tasks, fetch));
    var i :| 0 <= i < |ids| && ids[i] == id;
    assert tasks[i] in tasks;
  }

  /** The i-th requested device has something to publish: a fresh record or a cached one. */
  predicate Publishable(tasks: seq<Pairing>, cache: map<string, DeviceRecord>, fetch: nat -> DeviceFetch, i: int) {
    0 <= i < |tasks| && (fetch(i).info.Ok? || (tasks[i].deviceId.Some? && tasks[i].deviceId.value in cache))
  }

  /**
   * A cycle whose pairings arrived publishes data exactly when some requested device
   * was fetched successfully or has a cached record to fall back on.
   */
  lemma CycleSucceedsIff(cache: map<string, DeviceRecord>, ps: seq<Pairing>, fetch: nat -> DeviceFetch)
    ensures UpdateCycle(cache, Ok(ps), fetch).result.Updated? <==>
      exists i :: Publishable(Requested(ps), cache, fetch, i)
  {
    if UpdateCycle(cache, Ok(ps), fetch).result.Updated? {
      var i := PublishedHasSource(cache, ps, fetch);
      assert Publishable(Requested(ps), cache, fetch, i);
    }
    forall i | Publishable(Requested(ps), cache, fetch, i)
      ensures UpdateCycle(cache, Ok(ps), fetch).result.Updated?
    {
      PublishableIsPublished(cache, ps, fetch, i);
    }
  }

  lemma PublishedHasSource(cache: map<string, DeviceRecord>, ps: seq<Pairing>, fetch: nat -> DeviceFetch) returns (k: int)
    requires UpdateCycle(cache, Ok(ps), fetch).result.Updated?
    ensures Publishable(Requested(ps), cache, fetch, k)
  {
    var tasks := Requested(ps);
    var ids := DeviceIds(tasks);
    var results := Gathered(tasks, fetch);
    MergeIsRestrictedCache(cache, ids, results);
    var merged := MergeResults(cache, ids, results).merged;
    var id :| id in merged;
    k :| 0 <= k < |ids| && ids[k] == id;
    if id !in cache {
      FreshDomain(ids, results, id);
      k :| SucceededAt(ids, results, k, id);
    }
  }

  lemma PublishableIsPublished(cache: map<string, DeviceRecord>, ps: seq<Pairing>, fetch: nat -> DeviceFetch, k: int)
    requires Publishable(Requested(ps), cache, fetch, k)
    ensures UpdateCycle(cache, Ok(ps), fetch).result.Updated?
  {
    var tasks := Requested(ps);
    var ids := DeviceIds(tasks);
    var results := Gathered(tasks, fetch);
    MergeIsRestrictedCache(cache, ids, results);
    if results[k].Ok? {
      FreshDomain(ids, results, ids[k]);
      assert SucceededAt(ids, results, k, ids[k]);
    }
    assert ids[k] in MergeResults(cache, ids, results).merged;
  }
}
