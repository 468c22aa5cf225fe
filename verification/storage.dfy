/**
  The records the indexer stores for bridge traffic, reduced to the fields the
  Starknet event decoder fills in.
 */
module Storage {

  /** The two chains the bridge connects. */
  datatype BridgeChain = Ethereum | Starknet

  /** What a stored event records; only the two L2 labels come from Starknet events. */
  datatype EventLabel =
    | DepositInitiatedL1
    | WithdrawCompletedL1
    | DepositInitiatedL2
    | WithdrawCompletedL2

  /** Follow-up transactions the indexer schedules on the other chain. */
  datatype CrossChainTxKind = WithdrawAuto | BurnAuto

  /** A 256-bit request hash, rendered as its high and low felts, high first. */
  datatype U256Hex = U256Hex(high: string, low: string)

  /** A bridge request: where it started, which collections and owners it links, and its raw content. */
  datatype Request = Request(
    hash: U256Hex,
    chainSrc: BridgeChain,
    collectionSrc: string,
    collectionDst: string,
    from: string,
    to: string,
    content: seq<string>)

  /** One observed bridge event. */
  datatype Event = Event(
    reqHash: U256Hex,
    eventLabel: EventLabel,
    blockTimestamp: nat,
    blockNumber: nat,
    txHash: string)

  /** A transaction to be sent on `chain` on behalf of a request; `txHash` is empty until it is sent. */
  datatype CrossChainTx = CrossChainTx(
    chain: BridgeChain,
    kind: CrossChainTxKind,
    reqHash: U256Hex,
    reqContent: seq<string>,
    txHash: string)
}
