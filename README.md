# Fermax Cloud integration: token client and device coordinator

This project models the two stateful pieces of the Fermax Cloud integration for Home
Assistant and proves properties of the model:

- `FermaxClient` (`custom_components/fermax_cloud/api.py`) holds an OAuth 2.0 session:
  - an access token, a refresh token and an expiry;
  - login with the resource-owner password grant (section 4.3 of RFC 6749);
  - refresh with the refresh-token grant (section 6 of RFC 6749), falling back to a login;
  - a token check before every call;
  - a "refresh once and retry once on a 401" rule shared by the five data endpoints;
  - a bounded retry helper with exponential delays;
  - a log sanitizer.
- `FermaxDataUpdateCoordinator` (`custom_components/fermax_cloud/coordinator.py`)
  refreshes all paired devices, merges the per-device outcomes against a cache of
  last-known-good records, publishes the merged map, and resolves door-open requests
  to relay coordinates.

Layout (one Dafny module per file):

| file | module | contents |
|---|---|---|
| `wrappers.dfy` | `Wrappers` | `Option`, `Result` |
| `payloads.dfy` | `Payloads` | JSON values, pairings, door access entries |
| `session.dfy` | `TokenSession` | pure specification of the client: token state, login, refresh, token check, the 401 policy, lemmas |
| `api.dfy` | `FermaxApi` | class `FermaxClient`, whose fields are updated in place and whose methods are proved equal to the `TokenSession` functions; the retry loop and the sanitizer |
| `merge.dfy` | `RefreshMerge` | pure specification of one refresh cycle, with lemmas |
| `coordinator.dfy` | `FermaxCoordinator` | class `FermaxDataUpdateCoordinator`, proved against `RefreshMerge`; door resolution |

How the outside world is represented:

- **Token endpoint.** Its replies are a queue held by the client (`oauthReplies`). An empty queue behaves like a connection failure.
- **Data endpoints.** Each call takes two replies as parameters: `first` for the request and `retry` for the repeated request after a 401.
- **Request log.** Every request the client sends is appended to `requests`, so the number and order of requests can be stated.
- **Time.** Each operation takes one integer `now`.
- **Concurrent device fetches.** The fetches that `asyncio.gather` runs concurrently are given as their outcomes: `fetch(i)` is what the two client calls of the i-th requested device returned.

Where the code does not do what a reader might expect, the model follows the code:

- **Door errors.** All three door-open validation errors are `ValueError`s, raised before anything is sent.
- **Door lookup.** Doors are looked up in the never-pruned cache `_devices`, not in the published data. So a device that is no longer paired can still be opened (`UnpairedDeviceStillOpens`).
- **Error statuses.** An error status on a data request, the retry after a 401 included, reaches the endpoint's `except ClientError`. That turns it into a connection error for pairings, device and user info, an API error for open-door, and an empty list for services.
- **"No devices could be updated".** This `UpdateFailed` is raised inside the `try` block of `_async_update_data`, so its last `except Exception` clause catches it again. It surfaces as an "Unexpected error" wrapping it (`UnexpectedFailure(NoDevicesUpdated)`).
- **Malformed token replies.** A 200 token reply without `access_token` raises before anything is stored. A `null` `expires_in` raises only after the access and refresh tokens were stored. Both are modelled as `Malformed` errors with exactly those partial updates.
- **`_retry_with_backoff`.** No endpoint calls it; it is modelled on its own.

## Model

| member | source | states |
|---|---|---|
| TokenSession.Issued | custom_components/fermax_cloud/api.py:119-122 | the stored token is valid at time s exactly when the access token is non-empty and s < now + expires_in - 60; the refresh token is the one given |
| TokenSession.DefaultLifetimeExample | custom_components/fermax_cloud/api.py:121-122 | with the default lifetime of 3600 a token issued at 0 is valid at 3539 and expired at 3540 |
| TokenSession.LoginSpec | custom_components/fermax_cloud/api.py:80-125 | a login sends exactly one password-grant request, consumes one reply, and never raises an API error |
| TokenSession.LoginOutcome | custom_components/fermax_cloud/api.py:105-122 | a connection failure raises a connection error and a non-200 reply an auth error with the reply text, both with the tokens unchanged; success happens exactly on a complete 200 reply and stores the access token, the reply's refresh token or none, and the expiry; a missing access token leaves the tokens unchanged; a present access token with a null lifetime raises the malformed-lifetime error, exactly in that case, and leaves the access and refresh tokens written with the old expiry, the only failure that changes them |
| TokenSession.RefreshSpec | custom_components/fermax_cloud/api.py:127-178 | a refresh sends one or two token requests, the refresh grant first when a refresh token is held; every failure except a malformed reply comes from a password-grant request sent last |
| TokenSession.RefreshOutcome | custom_components/fermax_cloud/api.py:129-175 | without a refresh token it is the login; a non-200 reply or a connection failure falls back to the login after the refresh request; a 200 reply replaces the access token and expiry, and the refresh token only when the reply has that key; a malformed 200 reply leaves the tokens unchanged when the access token is missing; a present access token with a null lifetime raises the malformed-lifetime error, exactly in that case, and leaves the two tokens written with the old expiry, the only failure that changes the tokens |
| TokenSession.NeedsRefresh | custom_components/fermax_cloud/api.py:183 | the test of `_ensure_token`; `EnsureSpec` proves a refresh is sent exactly when it holds, and `Issued` says when it holds of a freshly stored token |
| TokenSession.Lifetime | custom_components/fermax_cloud/api.py:121 | `int(data.get("expires_in", 3600))`, none where `int(None)` raises; `DefaultLifetimeExample` and `LoginOutcome` state its effect on the stored expiry |
| TokenSession.StoreGrant | custom_components/fermax_cloud/api.py:119-122 | the field writes after a 200 reply (also at lines 171-175); `LoginOutcome` and `RefreshOutcome` state, case by case, what they store: the full grant on a complete reply, nothing when the access token is missing, and the two tokens with the old expiry when the lifetime is null |
| TokenSession.EnsureSpec | custom_components/fermax_cloud/api.py:180-185 | a refresh is sent exactly when the access token is missing or empty or now >= expires_at; otherwise nothing is sent and tokens and replies are unchanged |
| TokenSession.RaiseConnectionError | custom_components/fermax_cloud/api.py:241-243 | the handler of pairings, device and user info; `TransportFailureMapping` proves that with it every failure of the endpoint's own request, the retry after a 401 included, surfaces as a connection error |
| TokenSession.RaiseApiError | custom_components/fermax_cloud/api.py:401-403 | the open-door handler; `TransportFailureMapping` proves that with it every failure of the open-door request surfaces as an API error |
| TokenSession.NoServices | custom_components/fermax_cloud/api.py:312-314 | the services handler; `ServicesFallBackToEmpty` and `ServicesFailOnlyOnTokens` prove what it means for the call |
| TokenSession.ServicesFallBackToEmpty | custom_components/fermax_cloud/api.py:282-314 | once a token is held, a transport failure or error status on the services request that decides the outcome (the retry after a 401 and a successful refresh, the first request otherwise) yields an empty list, not an error |
| TokenSession.Checked | custom_components/fermax_cloud/api.py:232-239 | `raise_for_status` and the endpoint's `except ClientError`; `LastReplyDecides` proves which reply it is applied to, `TransportFailureMapping` and `ServicesFallBackToEmpty` what the handlers make of it |
| TokenSession.SendAfter | custom_components/fermax_cloud/api.py:225-239 | the request and its single retry after a 401, given the refresh result; `SendApiCalls` and `SendFailureSource` state its requests and failures |
| TokenSession.SendSpec | custom_components/fermax_cloud/api.py:219-239 | `SendAfter` with the refresh of `RefreshSpec`; `FermaxClient.Send` is proved equal to it |
| TokenSession.CallSpec | custom_components/fermax_cloud/api.py:207-243 | the token check, then the send; `UnauthorizedRetriedOnce`, `LastReplyDecides` and `CallFailureSource` state its data requests, outcome and failures |
| TokenSession.UnauthorizedRetriedOnce | custom_components/fermax_cloud/api.py:219-236 | an endpoint call sends no data request if no token could be obtained, one with the held token unless the reply was a 401 and the refresh succeeded, and then exactly one more with the refreshed token, never a third |
| TokenSession.SendApiCalls | custom_components/fermax_cloud/api.py:225-236 | the data requests of the send step are the request and, after a 401 and a successful refresh, its one retry |
| TokenSession.LastReplyDecides | custom_components/fermax_cloud/api.py:225-239 | once a token is held, the retry's reply decides the outcome after a 401 (a second 401 is raised, not retried), the first reply's otherwise; a failed refresh is raised as itself |
| TokenSession.CallFailureSource | custom_components/fermax_cloud/api.py:219-243 | a failed call failed on a token request with a non-API error, or on its own last data request through the endpoint's handler |
| TokenSession.SendFailureSource | custom_components/fermax_cloud/api.py:225-243 | the same for the send step, given the refresh result |
| TokenSession.ServicesFailOnlyOnTokens | custom_components/fermax_cloud/api.py:282-314 | the services endpoint fails only on a token request |
| TokenSession.TransportFailureMapping | custom_components/fermax_cloud/api.py:207-403 | a failure on the data request itself is an API error for open-door (lines 401-403) and a connection error for the other endpoints (as at lines 241-243) |
| FermaxApi.Retryable | custom_components/fermax_cloud/api.py:193-195 | the errors `_retry_with_backoff` catches and retries; `RetryWithBackoff` proves every other error propagates at once |
| FermaxApi.RetryWithBackoff | custom_components/fermax_cloud/api.py:187-205 | at most 3 calls; after a retryable failure of a call that is not the last it sleeps 1 * 2^k (so the delays are 1 then 2); it stops at the first success or non-retryable error, which propagates with no sleep; the last call's outcome is returned |
| FermaxApi.SanitizeLogData | custom_components/fermax_cloud/api.py:66-78 | the copy has the same keys; exactly the sensitive keys present are redacted, all other entries unchanged |
| FermaxApi.FermaxClient.constructor | custom_components/fermax_cloud/api.py:45-58 | no tokens, expiry 0, nothing sent |
| FermaxApi.FermaxClient.PostToken | custom_components/fermax_cloud/api.py:101-104 | one token request is logged and one reply consumed |
| FermaxApi.FermaxClient.WriteGrant | custom_components/fermax_cloud/api.py:119-122 | the token fields after a 200 reply are those of the grant specification; the refresh path stores them the same way at lines 171-175 |
| FermaxApi.FermaxClient.AsyncLogin | custom_components/fermax_cloud/api.py:80-125 | the new token fields, the error, the request log and the reply queue are those of `LoginSpec` |
| FermaxApi.FermaxClient.AsyncRefreshToken | custom_components/fermax_cloud/api.py:127-178 | the same, against `RefreshSpec` |
| FermaxApi.FermaxClient.EnsureToken | custom_components/fermax_cloud/api.py:180-185 | the same, against `EnsureSpec` |
| FermaxApi.FermaxClient.Call | custom_components/fermax_cloud/api.py:207-243 | token check then send, with the state and outcome of `CallSpec` |
| FermaxApi.FermaxClient.Send | custom_components/fermax_cloud/api.py:219-239 | the request and its single retry after a 401, as `SendSpec` |
| FermaxApi.FermaxClient.AsyncGetPairings | custom_components/fermax_cloud/api.py:207-243 | state and outcome are those of `CallSpec` with the connection-error handler |
| FermaxApi.FermaxClient.AsyncGetDevice | custom_components/fermax_cloud/api.py:245-280 | the same for the device endpoint |
| FermaxApi.FermaxClient.AsyncGetServices | custom_components/fermax_cloud/api.py:282-314 | the same with the empty-list handler |
| FermaxApi.FermaxClient.AsyncGetUserInfo | custom_components/fermax_cloud/api.py:316-349 | the same for user info |
| FermaxApi.FermaxClient.AsyncOpenDoor | custom_components/fermax_cloud/api.py:351-403 | the same for open-door with the given coordinates and the API-error handler |
| RefreshMerge.UpdateDevice | custom_components/fermax_cloud/coordinator.py:87-110 | a device record exists exactly when the device fetch succeeded; a failed services fetch gives empty services; a device fetch error propagates |
| RefreshMerge.HasDeviceId | custom_components/fermax_cloud/coordinator.py:49-50 | the truthiness test of `deviceId`; `Requested` proves which pairings pass it |
| RefreshMerge.Requested | custom_components/fermax_cloud/coordinator.py:48-54 | the requested pairings are exactly those with a non-empty device id, none longer than the input |
| RefreshMerge.RequestedAppend | custom_components/fermax_cloud/coordinator.py:48-54 | the filter keeps order and multiplicity: filtering a concatenation gives the filtered parts, concatenated |
| RefreshMerge.RequestedSingle | custom_components/fermax_cloud/coordinator.py:49-54 | one pairing is requested exactly when it has a device id |
| RefreshMerge.Gathered | custom_components/fermax_cloud/coordinator.py:57 | one result per task, in task order, each the outcome of `_update_device` for that task |
| RefreshMerge.MergeResults | custom_components/fermax_cloud/coordinator.py:60-70 | the merge loop over `zip(device_ids, results)`; `MergeIsRestrictedCache`, `StaleEntryRetained` and `FreshEntryPublished` state its result |
| RefreshMerge.MergeIsRestrictedCache | custom_components/fermax_cloud/coordinator.py:60-70 | after the merge loop the cache is the old cache updated with this cycle's successful records, and the merged map is that cache restricted to the requested ids |
| RefreshMerge.FreshDomain | custom_components/fermax_cloud/coordinator.py:68-70 | an id has a fresh record exactly when one of its fetches succeeded |
| RefreshMerge.FreshValue | custom_components/fermax_cloud/coordinator.py:68-70 | the fresh record of an id is that of its last successful fetch |
| RefreshMerge.StaleEntryRetained | custom_components/fermax_cloud/coordinator.py:61-67 | a requested device with no successful fetch keeps its cached record in the merged map, has no entry if none is cached, and its cache entry, or the lack of one, is unchanged |
| RefreshMerge.FreshEntryPublished | custom_components/fermax_cloud/coordinator.py:68-70 | a device whose last fetch succeeded is published and cached with that record |
| RefreshMerge.UnpairedDroppedButCached | custom_components/fermax_cloud/coordinator.py:42-70 | a device not requested this cycle is absent from the merged map while its cache entry stays as it was |
| RefreshMerge.FailureOf | custom_components/fermax_cloud/coordinator.py:77-85 | connection errors, other client errors and malformed replies map to the three kinds of `UpdateFailed`, in the order of the `except` clauses |
| RefreshMerge.UpdateCycle | custom_components/fermax_cloud/coordinator.py:35-85 | `_async_update_data` as a function of the cache; `CycleKeepsCache`, `PublishedIsCached`, `PublishedIsPaired` and `CycleSucceedsIff` state its result |
| RefreshMerge.CycleKeepsCache | custom_components/fermax_cloud/coordinator.py:35-85 | the cache never loses a device, and a failed cycle leaves it unchanged |
| RefreshMerge.PublishedIsCached | custom_components/fermax_cloud/coordinator.py:60-75 | a successful cycle publishes a non-empty map whose every record is the one in the new cache |
| RefreshMerge.PublishedIsPaired | custom_components/fermax_cloud/coordinator.py:48-70 | every published device is named by a pairing of this cycle |
| RefreshMerge.CycleSucceedsIff | custom_components/fermax_cloud/coordinator.py:60-75 | a cycle whose pairings arrived publishes data exactly when some requested device was fetched or has a cached record |
| RefreshMerge.PublishedHasSource | custom_components/fermax_cloud/coordinator.py:60-75 | a published cycle has a requested device that was fetched or cached |
| RefreshMerge.PublishableIsPublished | custom_components/fermax_cloud/coordinator.py:60-75 | a requested device that was fetched or cached makes the cycle publish |
| FermaxCoordinator.ResolveDoor | custom_components/fermax_cloud/coordinator.py:116-134 | device not in the cache, door key not in its door map, and a missing coordinate are the three rejections, each exactly in its case; otherwise the result is the door's coordinates, 0 included |
| FermaxCoordinator.FailedCycleKeepsDoors | custom_components/fermax_cloud/coordinator.py:116-134 | after a failed cycle every door resolves as before |
| FermaxCoordinator.KnownDeviceStaysKnown | custom_components/fermax_cloud/coordinator.py:116-117 | a device once cached is never reported as not found |
| FermaxCoordinator.UnpairedDeviceStillOpens | custom_components/fermax_cloud/coordinator.py:116-150 | a device no pairing names is not published, yet its doors resolve as before |
| FermaxCoordinator.FermaxDataUpdateCoordinator.constructor | custom_components/fermax_cloud/coordinator.py:18-33 | empty cache, no published data |
| FermaxCoordinator.FermaxDataUpdateCoordinator.AsyncUpdateData | custom_components/fermax_cloud/coordinator.py:35-85 | the pairings call changes the client as `CallSpec` says, and the result and new cache are those of `UpdateCycle` |
| FermaxCoordinator.FermaxDataUpdateCoordinator.CollectTasks | custom_components/fermax_cloud/coordinator.py:45-54 | it returns the requested pairings, each with its device id |
| FermaxCoordinator.FermaxDataUpdateCoordinator.MergeInto | custom_components/fermax_cloud/coordinator.py:60-70 | the merged map and new cache are those of `MergeResults` |
| FermaxCoordinator.FermaxDataUpdateCoordinator.AsyncRefresh | custom_components/fermax_cloud/coordinator.py:35-85 | a success publishes the merged map, a failure keeps the old data; published records always agree with the cache |
| FermaxCoordinator.FermaxDataUpdateCoordinator.AsyncOpenDoor | custom_components/fermax_cloud/coordinator.py:112-144 | a rejected door sends nothing and requests no refresh; otherwise the client sends the open-door command with exactly the resolved coordinates, and one refresh is requested exactly when it succeeds; its error is re-raised otherwise |
| FermaxCoordinator.FermaxDataUpdateCoordinator.GetAllDevices | custom_components/fermax_cloud/coordinator.py:152-156 | empty before any published data; in a valid coordinator every device it lists is in the cache with the same record, so it can be opened, and once data is published the map is not empty |
| FermaxCoordinator.FermaxDataUpdateCoordinator.GetDeviceData | custom_components/fermax_cloud/coordinator.py:146-150 | a device's record is returned exactly when it is in `GetAllDevices`, with that record |
| FermaxCoordinator.FermaxDataUpdateCoordinator.PublishedDeviceIsCached | custom_components/fermax_cloud/coordinator.py:116-150 | every published device is in the cache with the same record, so it can be opened |

## Left out

- HTTP transport: URLs, headers, timeouts and JSON decoding are not modelled. Each request is an abstract reply (status, text and decoded body, or a connection failure), and bodies are decoded values.
- `_get_basic_auth` and the client credentials are not modelled; they are base64 encodings of fixed secrets.
- The `asyncio.Lock` of `_ensure_token` is not modelled; its section runs sequentially.
- `asyncio.sleep` is represented by the recorded delays of `RetryWithBackoff`.
- `asyncio.gather` is represented by per-task outcomes (`fetch`).
- FermaxCoordinator.FermaxDataUpdateCoordinator.AsyncUpdateData: the device and services fetches run concurrently and are given by their outcomes only. Their effect on the client is not modelled: the client's tokens, request log and token-reply queue reflect the pairings call alone, without the device and services requests of each device (coordinator.py lines 93 and 97) or the token replies a refresh during them would use.
- FermaxCoordinator.FermaxDataUpdateCoordinator.AsyncRefresh: it carries the same client clauses as `AsyncUpdateData`, so its client state likewise leaves out the device and services fetches and any refresh during them.
- Time is an integer, read once per operation. `time.time()` returns a float and is read again in each nested call.
- Delays are integer seconds, not the floats `1.0 * 2 ** attempt`.
- Logging is not modelled. The sanitizer's result is modelled; its only use is a debug log line.
- Door-open on a pairing whose `accessDoorMap` is `null` is not modelled: line 123 of `coordinator.py` then raises `TypeError`, not `ValueError`. The model has no `null` door map.
- Door-open on a door whose entry or `accessId` is `null` is not modelled: line 127 or 129 of `coordinator.py` then raises `AttributeError`, not `ValueError`. The model has no `null` entries or access ids. Both errors arise before anything is sent.
- `expires_in` is an integer or null in the model. Strings and floats that `int()` would convert are not represented.
- The dictionaries returned by `async_login` and `async_refresh_token` are not modelled; no caller uses them.
- Home Assistant's `DataUpdateCoordinator` base class is represented by `AsyncRefresh` only: a success publishes the data, a failure keeps it. Its scheduling and `last_update_success` are not modelled.
- `async_request_refresh` is modelled as a counter of refresh requests.
- The sensor, binary sensor and button platforms, the config flow, the integration setup and the constants module are not modelled. They are presentation and configuration code.
