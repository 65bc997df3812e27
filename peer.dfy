/**
 * What the chaincode sees of the Fabric peer: the world state as a map from
 * key to stored bytes, the response it hands back, and the result of a
 * range scan over the whole key space.
 */
module Peer {

  /** The world state: key to stored value (bytes, modelled as characters). */
  type Ledger = map<string, string>

  /** `shim.Success(payload)` or `shim.Error(message)`. `shim.Success(nil)` is Success(""). */
  datatype Response = Success(payload: string) | Error(message: string)

  /** One (key, value) pair produced by a range scan. */
  datatype Entry = Entry(key: string, value: string)

  /** One call of the scan iterator's `Next()`: an entry, or the error it returned. */
  datatype ScanStep = Next(entry: Entry) | NextError(message: string)

  /**
   * `GetStateByRange("", "")`: either the error it returned, or the steps the
   * iterator yields until `HasNext()` turns false, in the peer's key order.
   */
  datatype Scan = OpenError(message: string) | Opened(steps: seq<ScanStep>)
}
