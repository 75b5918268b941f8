/** Shared vocabulary of the monitoring scripts: optional values, the
    chain-position and identifier types, and the shape of one
    `commitmentJoined(bytes32 root)` log as the read client returns it. */
module Common {

  /** A value that may be missing: a JSON field that is absent, or an
      external call that failed. */
  datatype Option<T> = None | Some(value: T)

  /** Hex strings as the read client returns them: a contract address, a
      commitment root and a transaction hash. */
  type Address = string
  type Root = string
  type TxHash = string

  /** One `commitmentJoined(root)` log: emitting contract, claimed root,
      transaction and block height. */
  datatype Log = Log(address: Address, root: Root, txHash: TxHash, blockNumber: nat)

  /** The larger of two values, used for high-water marks. */
  function Max(a: nat, b: nat): (m: nat)
    ensures m >= a && m >= b
    ensures m == a || m == b
  {
    if b > a then b else a
  }
}
