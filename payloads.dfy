/**
 * Decoded response bodies of the Fermax cloud API, with the fields the core reads.
 * Everything else in a reply is carried as opaque JSON.
 */
module Payloads {
  import opened Wrappers

  /** A decoded JSON value; numbers are restricted to integers. */
  datatype Json =
    | JNull
    | JBool(b: bool)
    | JNumber(n: int)
    | JString(s: string)
    | JArray(items: seq<Json>)
    | JObject(fields: map<string, Json>)

  /**
   * The `accessId` of a door: the (block, subblock, number) coordinates of its relay.
   * `None` stands for a key that is missing or null; a missing `accessId` is all `None`.
   */
  datatype AccessId = AccessId(block: Option<int>, subblock: Option<int>, number: Option<int>)

  /** One entry of a pairing's `accessDoorMap`. */
  datatype DoorAccess = DoorAccess(visible: bool, title: string, accessId: AccessId)

  /**
   * One element of the pairings list: `deviceId` is `None` when the key is missing or
   * null, and a missing `accessDoorMap` is the empty map.
   */
  datatype Pairing = Pairing(deviceId: Option<string>, tag: string, accessDoorMap: map<string, DoorAccess>)
}
