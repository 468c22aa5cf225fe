/**
  The decoder for bridge events emitted on Starknet: it turns a raw event (a
  selector key, a request hash split over two keys, a timestamp key and a buffer
  of felts) into a stored `Request`, an `Event` record and the cross-chain
  transactions the request asks for.
 */
module Events {
  import opened Wrappers
  import opened Felts
  import opened Hex
  import opened Bits
  import opened Storage

  /** Selector of the event the L2 bridge emits when a deposit towards Ethereum starts. */
  const DEPOSIT_REQUEST_INITIATED_SELECTOR: string :=
    "0x1682ccdc90fbee2d6cc3e930539cb4ca29390a438db1c2e4c7d493e01a61abb"

  /** Selector of the event the L2 bridge emits when a withdrawal from Ethereum completes. */
  const WITHDRAW_REQUEST_COMPLETED_SELECTOR: string :=
    "0x132aab9714c265c8ad151ce006bb91691100722ddec42e7ee96dc9dfa9e741c"

  /** Header bit asking for an automatic withdrawal on Ethereum (low bit of header byte 3). */
  const REQUEST_HEADER_WITHDRAW_AUTO: bv128 := 0x01000000

  /** Header bit asking for an automatic burn on Ethereum (low bit of header byte 2). */
  const REQUEST_HEADER_BURN_AUTO: bv128 := 0x010000

  /** The errors the decoder returns instead of a value. */
  datatype Error =
    | U256TooShort                          // fewer than two felts to read a u256 from
    | TimestampNotU64                       // the timestamp key does not fit the stored timestamp
    | DataTooShort                          // fewer felts than the fixed part of a request
    | NoRequestForLabel(eventLabel: EventLabel)  // a label that does not describe a request
    | HeaderNotU128                         // the request header does not fit in a u128

  /** An event as the Starknet node reports it, restricted to what the decoder reads. */
  datatype EmittedEvent = EmittedEvent(
    keys: seq<Felt>,
    data: seq<Felt>,
    blockNumber: nat,
    transactionHash: Felt)

  /** What `get_store_data` hands to storage. */
  datatype StoreData = StoreData(
    request: Option<Request>,
    event: Option<Event>,
    txs: seq<CrossChainTx>)

  /** The first seven felts of a request buffer, named by the role each plays. */
  datatype FixedPart = FixedPart(
    header: Felt,
    hashLow: Felt,
    hashHigh: Felt,
    collectionL1: Felt,
    collectionL2: Felt,
    ownerL1: Felt,
    ownerL2: Felt)

  const FIXED_PART_LENGTH: nat := 7

  function FixedPartOf(data: seq<Felt>): FixedPart
    requires |data| >= FIXED_PART_LENGTH
  {
    FixedPart(data[0], data[1], data[2], data[3], data[4], data[5], data[6])
  }

  function OtherChain(chain: BridgeChain): BridgeChain {
    match chain
    case Ethereum => Starknet
    case Starknet => Ethereum
  }

  /** The collection address that lives on `chain`. */
  function CollectionOn(p: FixedPart, chain: BridgeChain): Felt {
    match chain
    case Ethereum => p.collectionL1
    case Starknet => p.collectionL2
  }

  /** The owner address that lives on `chain`. */
  function OwnerOn(p: FixedPart, chain: BridgeChain): Felt {
    match chain
    case Ethereum => p.ownerL1
    case Starknet => p.ownerL2
  }

  /** The labels a Starknet bridge event can carry, and that describe a request. */
  predicate IsRequestLabel(eventLabel: EventLabel) {
    eventLabel == DepositInitiatedL2 || eventLabel == WithdrawCompletedL2
  }

  /** Where the request behind an event started: a deposit seen on L2 started on
      Starknet, a withdrawal completed on L2 started on Ethereum. */
  function SourceChain(eventLabel: EventLabel): BridgeChain
    requires IsRequestLabel(eventLabel)
  {
    if eventLabel == DepositInitiatedL2 then Starknet else Ethereum
  }

  /** Both halves of a rendered u256 are written as `felt_to_hex` writes a felt. */
  predicate IsCanonicalU256(t: U256Hex) {
    IsCanonicalHex(t.high) && IsCanonicalHex(t.low)
  }

  /** Reads back the (low, high) felt pair of a rendered u256. */
  function ParseU256(t: U256Hex): Option<(nat, nat)> {
    match (ParseHex(t.low), ParseHex(t.high))
    case (Some(low), Some(high)) => Some((low, high))
    case _ => None
  }

  /** The 256-bit number a rendered u256 stands for, when both halves are 128-bit values. */
  function U256Value(t: U256Hex): Option<nat> {
    match ParseU256(t)
    case Some((low, high)) =>
      if low < U128_LIMIT && high < U128_LIMIT then Some(high * U128_LIMIT + low) else None
    case None => None
  }

  /** `u256_to_hex`: renders the u256 held by the first two felts, high half (`felts[1]`) first. */
  function U256ToHex(felts: seq<Felt>): (r: Result<U256Hex, Error>)
    ensures r.Failure? <==> |felts| < 2
    ensures r.Failure? ==> r.error == U256TooShort
    ensures r.Success? ==> IsCanonicalU256(r.value)
    ensures r.Success? ==> ParseU256(r.value) == Some((felts[0] as nat, felts[1] as nat))
    ensures r.Success? && felts[0] < U128_LIMIT && felts[1] < U128_LIMIT ==>
              U256Value(r.value) == Some(felts[1] * U128_LIMIT + felts[0])
  {
    if |felts| < 2 then
      Failure(U256TooShort)
    else
      HexRoundTrip(felts[0]);
      HexRoundTrip(felts[1]);
      Success(U256Hex(FeltToHex(felts[1]), FeltToHex(felts[0])))
  }

  /** The `content` of a request: every felt of the buffer rendered in hex, in order. */
  function Content(data: seq<Felt>): (content: seq<string>)
    ensures |content| == |data|
    ensures forall i :: 0 <= i < |data| ==> IsCanonicalHex(content[i]) && ParseHex(content[i]) == Some(data[i] as nat)
  {
    if data == [] then
      []
    else
      HexRoundTrip(data[0]);
      [FeltToHex(data[0])] + Content(data[1..])
  }

  /** `request_from_event_data`: builds the request described by the fixed part of the buffer. */
  function RequestFromEventData(eventLabel: EventLabel, data: seq<Felt>): (r: Result<Request, Error>)
    ensures r.Success? <==> |data| >= FIXED_PART_LENGTH && IsRequestLabel(eventLabel)
    ensures |data| < FIXED_PART_LENGTH ==> r == Failure(DataTooShort)
    ensures |data| >= FIXED_PART_LENGTH && !IsRequestLabel(eventLabel) ==> r == Failure(NoRequestForLabel(eventLabel))
    ensures r.Success? ==>
              var p := FixedPartOf(data);
              var src := r.value.chainSrc;
              && src == SourceChain(eventLabel)
              && IsCanonicalU256(r.value.hash)
              && ParseU256(r.value.hash) == Some((p.hashLow as nat, p.hashHigh as nat))
              && r.value.collectionSrc == FeltToHex(CollectionOn(p, src))
              && r.value.collectionDst == FeltToHex(CollectionOn(p, OtherChain(src)))
              && r.value.from == FeltToHex(OwnerOn(p, src))
              && r.value.to == FeltToHex(OwnerOn(p, OtherChain(src)))
              && r.value.content == Content(data)
  {
    if |data| < FIXED_PART_LENGTH then
      Failure(DataTooShort)
    else
      var content := Content(data);
      match eventLabel
      case DepositInitiatedL2 =>
        (match U256ToHex(data[1..])  // the header, data[0], is not part of the hash
         case Failure(e) => Failure(e)
         case Success(hash) =>
           Success(Request(
             hash := hash,
             chainSrc := Starknet,
             collectionSrc := FeltToHex(data[4]),
             collectionDst := FeltToHex(data[3]),
             from := FeltToHex(data[6]),
             to := FeltToHex(data[5]),
             content := content)))
      case WithdrawCompletedL2 =>
        (match U256ToHex(data[1..])
         case Failure(e) => Failure(e)
         case Success(hash) =>
           Success(Request(
             hash := hash,
             chainSrc := Ethereum,
             collectionSrc := FeltToHex(data[3]),
             collectionDst := FeltToHex(data[4]),
             from := FeltToHex(data[5]),
             to := FeltToHex(data[6]),
             content := content)))
      case _ =>
        Failure(NoRequestForLabel(eventLabel))
  }

  /** `h & REQUEST_HEADER_WITHDRAW_AUTO == REQUEST_HEADER_WITHDRAW_AUTO` */
  predicate CanWithdrawAuto(h: bv128) {
    (h & REQUEST_HEADER_WITHDRAW_AUTO) == REQUEST_HEADER_WITHDRAW_AUTO
  }

  /** `h & REQUEST_HEADER_BURN_AUTO == REQUEST_HEADER_BURN_AUTO` */
  predicate CanBurnAuto(h: bv128) {
    (h & REQUEST_HEADER_BURN_AUTO) == REQUEST_HEADER_BURN_AUTO
  }

  /** Whether some transaction of `txs` has the given kind. */
  predicate HasKind(txs: seq<CrossChainTx>, kind: CrossChainTxKind) {
    exists i :: 0 <= i < |txs| && txs[i].kind == kind
  }

  /** An automatic transaction towards the Ethereum bridge, not yet sent. */
  function AutoTx(kind: CrossChainTxKind, reqHash: U256Hex, reqContent: seq<string>): CrossChainTx {
    CrossChainTx(Ethereum, kind, reqHash, reqContent, "")
  }

  /** The withdraw mask tests bit 24 of the header. */
  lemma WithdrawMaskBit(h: nat)
    requires h < U128_LIMIT
    ensures CanWithdrawAuto(h as bv128) <==> (h / 0x1000000) % 2 == 1
  {
  }

  /** The burn mask tests bit 16 of the header. */
  lemma BurnMaskBit(h: nat)
    requires h < U128_LIMIT
    ensures CanBurnAuto(h as bv128) <==> (h / 0x10000) % 2 == 1
  {
  }

  /** The two masks test the low bits of header bytes 3 and 2. */
  lemma MaskBits(h: nat)
    requires h < U128_LIMIT
    ensures CanWithdrawAuto(h as bv128) <==> ByteOf(h, 3) % 2 == 1
    ensures CanBurnAuto(h as bv128) <==> ByteOf(h, 2) % 2 == 1
  {
    WithdrawMaskBit(h);
    BurnMaskBit(h);
    BytePowers();
    LowBitOfByte(h, 3);
    LowBitOfByte(h, 2);
  }

  /** The automatic transactions for the two header flags: a withdrawal first, then a burn. */
  function AutoTxs(withdraw: bool, burn: bool, reqHash: U256Hex, reqContent: seq<string>): (txs: seq<CrossChainTx>)
    ensures |txs| <= 2
    ensures forall i :: 0 <= i < |txs| ==> txs[i] == AutoTx(txs[i].kind, reqHash, reqContent)
    ensures HasKind(txs, WithdrawAuto) <==> withdraw
    ensures HasKind(txs, BurnAuto) <==> burn
    ensures |txs| == 2 ==> txs[0].kind == WithdrawAuto && txs[1].kind == BurnAuto
  {
    var first := if withdraw then [AutoTx(WithdrawAuto, reqHash, reqContent)] else [];
    var second := if burn then [AutoTx(BurnAuto, reqHash, reqContent)] else [];
    var txs := first + second;
    assert withdraw ==> txs[0].kind == WithdrawAuto;
    assert burn ==> txs[|txs| - 1].kind == BurnAuto;
    txs
  }

  /** `get_xchain_txs`: the Ethereum-side transactions a request header asks for. */
  function GetXChainTxs(header: Felt, reqHash: U256Hex, reqContent: seq<string>): (r: Result<seq<CrossChainTx>, Error>)
    ensures r.Failure? <==> header >= U128_LIMIT
    ensures r.Failure? ==> r.error == HeaderNotU128
    ensures r.Success? ==>
              && |r.value| <= 2
              && (forall i :: 0 <= i < |r.value| ==>
                    && r.value[i].chain == Ethereum
                    && r.value[i].txHash == ""
                    && r.value[i].reqHash == reqHash
                    && r.value[i].reqContent == reqContent)
              && (HasKind(r.value, WithdrawAuto) <==> ByteOf(header, 3) % 2 == 1)
              && (HasKind(r.value, BurnAuto) <==> ByteOf(header, 2) % 2 == 1)
              && (|r.value| == 2 ==> r.value[0].kind == WithdrawAuto && r.value[1].kind == BurnAuto)
  {
    match ToU128(header)
    case None => Failure(HeaderNotU128)
    case Some(h) =>
      MaskBits(header);
      Success(AutoTxs(CanWithdrawAuto(h), CanBurnAuto(h), reqHash, reqContent))
  }

  /** The events the decoder tells apart by their first key. */
  datatype EventKind = DepositInitiated | WithdrawCompleted | Unrecognised

  /** The `match` on the rendered selector key: first the deposit selector, then the withdrawal one. */
  function KindOf(selector: Felt): (kind: EventKind)
    ensures kind == DepositInitiated <==> FeltToHex(selector) == DEPOSIT_REQUEST_INITIATED_SELECTOR
    ensures kind == WithdrawCompleted <==> FeltToHex(selector) == WITHDRAW_REQUEST_COMPLETED_SELECTOR
  {
    assert DEPOSIT_REQUEST_INITIATED_SELECTOR[64] != WITHDRAW_REQUEST_COMPLETED_SELECTOR[64];
    var rendered := FeltToHex(selector);
    if rendered == DEPOSIT_REQUEST_INITIATED_SELECTOR then DepositInitiated
    else if rendered == WITHDRAW_REQUEST_COMPLETED_SELECTOR then WithdrawCompleted
    else Unrecognised
  }

  /**
    The events on which `get_store_data` panics instead of returning: a key or
    data index out of range, or a request whose hash disagrees with the hash in
    the keys (the `assert_eq!` after decoding a recognised event), compared as
    (low, high) felt pairs.
   */
  predicate Panics(ev: EmittedEvent): (p: bool)
    // slicing `keys[1..]` of an empty key list, and `keys[3]` after a hash read from three keys
    ensures |ev.keys| == 0 || |ev.keys| == 3 ==> p
    // one or two keys: `u256_to_hex` returns its error before any other index is read
    ensures |ev.keys| == 1 || |ev.keys| == 2 ==> !p
    // `data[0]` is read before the selector is looked at
    ensures |ev.keys| >= 4 && |ev.data| == 0 ==> p
    ensures |ev.keys| >= 4 && |ev.data| > 0 && KindOf(ev.keys[0]) == Unrecognised ==> !p
    // the `assert_eq!` on a decoded deposit or withdrawal: the request's hash against the keys' hash
    ensures && |ev.keys| >= 4 && |ev.data| >= FIXED_PART_LENGTH && ev.keys[3] < U64_LIMIT
            && KindOf(ev.keys[0]) == WithdrawCompleted
            ==> (p <==> RequestFromEventData(WithdrawCompletedL2, ev.data).value.hash != U256ToHex(ev.keys[1..]).value)
    ensures && |ev.keys| >= 4 && |ev.data| >= FIXED_PART_LENGTH && ev.keys[3] < U64_LIMIT
            && KindOf(ev.keys[0]) == DepositInitiated && ev.data[0] < U128_LIMIT
            ==> (p <==> RequestFromEventData(DepositInitiatedL2, ev.data).value.hash != U256ToHex(ev.keys[1..]).value)
  {
    || |ev.keys| == 0
    || |ev.keys| == 3
    || (|ev.keys| >= 4 && |ev.data| == 0)
    || (&& |ev.keys| >= 4
        && |ev.data| >= FIXED_PART_LENGTH
        && ev.keys[3] < U64_LIMIT
        && ((KindOf(ev.keys[0]) == DepositInitiated && ev.data[0] < U128_LIMIT) || KindOf(ev.keys[0]) == WithdrawCompleted)
        && (ev.data[1] != ev.keys[1] || ev.data[2] != ev.keys[2]))
  }

  /** `get_store_data`: decodes one Starknet bridge event into what the indexer stores. */
  function GetStoreData(ev: EmittedEvent): (r: Result<StoreData, Error>)
    requires !Panics(ev)
    ensures r.Failure? <==>
              || |ev.keys| < 3
              || ev.keys[3] >= U64_LIMIT
              || (KindOf(ev.keys[0]) != Unrecognised && |ev.data| < FIXED_PART_LENGTH)
              || (KindOf(ev.keys[0]) == DepositInitiated && ev.data[0] >= U128_LIMIT)
    ensures |ev.keys| < 3 ==> r == Failure(U256TooShort)
    ensures |ev.keys| >= 4 && ev.keys[3] >= U64_LIMIT ==> r == Failure(TimestampNotU64)
    ensures && |ev.keys| >= 4 && ev.keys[3] < U64_LIMIT
            && KindOf(ev.keys[0]) != Unrecognised && |ev.data| < FIXED_PART_LENGTH
            ==> r == Failure(DataTooShort)
    ensures && |ev.keys| >= 4 && ev.keys[3] < U64_LIMIT
            && KindOf(ev.keys[0]) == DepositInitiated && |ev.data| >= FIXED_PART_LENGTH && ev.data[0] >= U128_LIMIT
            ==> r == Failure(HeaderNotU128)
    ensures r.Success? && KindOf(ev.keys[0]) == Unrecognised ==>
              r.value == StoreData(None, None, [])
    ensures r.Success? && KindOf(ev.keys[0]) == WithdrawCompleted ==>
              && r.value.event.Some? && r.value.event.value.eventLabel == WithdrawCompletedL2
              && r.value.request == Some(RequestFromEventData(WithdrawCompletedL2, ev.data).value)
              && r.value.txs == []
    ensures r.Success? && KindOf(ev.keys[0]) == DepositInitiated ==>
              && r.value.event.Some? && r.value.event.value.eventLabel == DepositInitiatedL2
              && r.value.request == Some(RequestFromEventData(DepositInitiatedL2, ev.data).value)
              && Success(r.value.txs) == GetXChainTxs(ev.data[0], r.value.request.value.hash, r.value.request.value.content)
    ensures r.Success? && r.value.event.Some? ==>
              && r.value.request.Some?
              && r.value.request.value.hash == r.value.event.value.reqHash
              && IsCanonicalU256(r.value.event.value.reqHash)
              && ParseU256(r.value.event.value.reqHash) == Some((ev.keys[1] as nat, ev.keys[2] as nat))
              && r.value.event.value.blockTimestamp == ev.keys[3]
              && r.value.event.value.blockNumber == ev.blockNumber
              && IsCanonicalHex(r.value.event.value.txHash)
              && ParseHex(r.value.event.value.txHash) == Some(ev.transactionHash as nat)
  {
    var hash :- U256ToHex(ev.keys[1..]);
    var blockTimestamp :- ToU64(ev.keys[3]).ToResult(TimestampNotU64);
    var header := ev.data[0];
    HexRoundTrip(ev.transactionHash);
    var storeEvent := Event(
      reqHash := hash,
      eventLabel := DepositInitiatedL2,
      blockTimestamp := blockTimestamp,
      blockNumber := ev.blockNumber,
      txHash := FeltToHex(ev.transactionHash));
    match KindOf(ev.keys[0])
    case DepositInitiated =>
      var storeEvent := storeEvent.(eventLabel := DepositInitiatedL2);
      var request :- RequestFromEventData(storeEvent.eventLabel, ev.data);
      var txs :- GetXChainTxs(header, request.hash, request.content);
      assert request.hash == storeEvent.reqHash;
      Success(StoreData(Some(request), Some(storeEvent), txs))
    case WithdrawCompleted =>
      var storeEvent := storeEvent.(eventLabel := WithdrawCompletedL2);
      var request :- RequestFromEventData(storeEvent.eventLabel, ev.data);
      assert request.hash == storeEvent.reqHash;
      Success(StoreData(Some(request), Some(storeEvent), []))
    case Unrecognised =>
      Success(StoreData(None, None, []))
  }
}
