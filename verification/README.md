# Starklane indexer: decoding Starknet bridge events

This project models, in Dafny, the part of the Starklane indexer that decodes
the events the L2 (Starknet) bridge contract emits. A raw event carries:

- a selector key,
- a request hash split over two keys (low half, then high half),
- a block-timestamp key,
- a data buffer of field elements (felts) that starts with the request's fixed
  part: header, hash low, hash high, L1 collection, L2 collection, L1 owner,
  L2 owner.

The decoder turns such an event into a stored `Request`, an `Event` record and
the list of cross-chain transactions that the request header asks for
(an automatic withdrawal and/or an automatic burn on Ethereum).

Layout of the project:

- `wrappers.dfy` — `Option` and `Result` (the counterparts of Rust's types).
- `felts.dfy` — felts as naturals below the Starknet prime; the `u64` and `u128`
  conversions, which can fail.
- `hex.dfy` — `felt_to_hex` as "0x" followed by lower-case hexadecimal digits
  without leading zeros, with the parser that inverts it.
- `bits.dfy` — bytes of a number.
- `storage.dfy` — the storage records the decoder fills in (`Request`, `Event`,
  `CrossChainTx` and their enums).
- `events.dfy` — the decoder itself: `u256_to_hex`, the request content,
  `request_from_event_data`, `get_xchain_txs` and `get_store_data`.
- `event_properties.dfy` — lemmas relating several calls: the deposit and
  withdrawal mappings are mirror images; a request reads only the fixed part;
  the header never reaches the hash; renderings are injective; header vectors.

Rust panics (an index out of range, the `assert_eq!` on the request hash) are
not modelled as results. `get_store_data` instead requires `!Panics(ev)`, and
the predicate `Panics` names the events on which the Rust code panics, with the
hash check stated on (low, high) felt pairs (see "## Left out").
Errors returned through `?` or `anyhow!` are modelled as `Failure` values with
a kind. The order in which they are raised follows the Rust code:

1. The hash keys are read.
2. The timestamp key is converted.
3. The selector is matched.
4. The request is built.
5. The header is converted.

So an unknown selector is ignored only after the first two steps have
succeeded.

How the indexer reads the request header and hash:

- The auto-withdraw test is on the low bit of header byte 3, so a flag byte of 3
  also asks for an automatic withdrawal (`BitTestNotByteTest`).
- The low bit of header byte 2 means "burn automatically".
- The request hash is two felts, at data[1] (low) and data[2] (high), and in the
  event keys at keys[1] (low) and keys[2] (high).

## Model

| member | source | states |
|---|---|---|
| Hex.HexRoundTrip | apps/indexer/src/starknet_indexer/events.rs:156-160 | parsing the hex rendering of a felt gives back that felt, and the rendering is canonical ("0x", lower-case digits, no leading zero) |
| Hex.CanonicalRoundTrip | apps/indexer/src/starknet_indexer/events.rs:156-160 | every canonical hex string is the rendering of the value it parses to |
| Hex.HexInjective | apps/indexer/src/starknet_indexer/events.rs:156-160 | two felts render to the same string exactly when they are equal |
| Events.U256ToHex | apps/indexer/src/starknet_indexer/events.rs:147-154 | fails exactly when fewer than two felts are given; otherwise both halves are canonical renderings and the rendering reads back as (felts[0], felts[1]) = (low, high); when both halves are 128-bit it stands for high * 2^128 + low |
| Events.Content | apps/indexer/src/starknet_indexer/events.rs:76-77 | the content has one entry per data felt, in order, and each entry is a canonical rendering that parses back to its felt |
| Events.RequestFromEventData | apps/indexer/src/starknet_indexer/events.rs:65-107 | fails with "data too short" below 7 felts, else with "no request for label" for any label except the two L2 ones; on success the source chain is the chain where the request started, the hash is a canonical rendering that reads back as (data[1], data[2]), source/destination collection and from/to owner are the collection and owner on the source chain and on the other chain, and content covers the whole buffer |
| Events.MaskBits | apps/indexer/src/starknet_indexer/events.rs:116-119 | the u128 mask tests `h & 0x01000000 == 0x01000000` and `h & 0x010000 == 0x010000` hold exactly when the low bit of header byte 3 (resp. byte 2) is set |
| Events.AutoTxs | apps/indexer/src/starknet_indexer/events.rs:121-144 | at most two transactions, all Ethereum-bound with an empty tx hash and the given request hash and content; a withdrawal is present iff asked, a burn iff asked, and the withdrawal comes first |
| Events.GetXChainTxs | apps/indexer/src/starknet_indexer/events.rs:109-145 | fails exactly when the header does not fit in u128; otherwise at most two Ethereum-bound, unsent transactions carrying the request hash and content, WithdrawAuto iff the low bit of header byte 3 is set, BurnAuto iff the low bit of byte 2 is set, WithdrawAuto first |
| Events.KindOf | apps/indexer/src/starknet_indexer/events.rs:37-61 | the selector key is recognised as a deposit exactly when its rendering is the deposit selector, and as a completed withdrawal exactly when its rendering is the withdrawal selector (the two constants differ, so the arms never overlap) |
| Events.Panics | apps/indexer/src/starknet_indexer/events.rs:23-58 | an event panics with no keys or exactly three keys, never with one or two keys, with four or more keys and no data, never on an unrecognised selector once `data[0]` exists; on a decoded deposit or withdrawal it panics exactly when the request's rendered hash differs from the keys' rendered hash. The renderings are (high, low) pairs, so this is stricter than the source's `assert_eq!` on one concatenated string (see "## Left out") |
| Events.GetStoreData | apps/indexer/src/starknet_indexer/events.rs:16-63 | fails exactly when the hash keys are too few, the timestamp key exceeds u64, a recognised event has fewer than 7 data felts, or a deposit header exceeds u128, and each of these cases gives its own error kind (U256TooShort, TimestampNotU64, DataTooShort, HeaderNotU128), in the Rust order; an unrecognised selector yields (None, None, []); a completed withdrawal yields its request, a WithdrawCompletedL2 event and no transactions; a deposit yields its request, a DepositInitiatedL2 event and the header's transactions; the stored event carries the request's hash (canonically rendered from keys 1 and 2), the timestamp key, the block number and the canonically rendered transaction hash |
| EventProperties.SelectorMatch | apps/indexer/src/starknet_indexer/events.rs:37-61 | an event is recognised as a deposit (resp. completed withdrawal) only when its selector key is the felt the selector constant denotes |
| EventProperties.MirrorImage | apps/indexer/src/starknet_indexer/events.rs:79-97 | for the same buffer, the deposit starts on Starknet and the completed withdrawal on Ethereum, with equal hash and content and swapped source/destination collections and from/to owners |
| EventProperties.RequestReadsOnlyFixedPart | apps/indexer/src/starknet_indexer/events.rs:68-97 | two buffers agreeing on their first 7 felts give requests that succeed together and agree on every field except content |
| EventProperties.HeaderOnlyInContent | apps/indexer/src/starknet_indexer/events.rs:76-97 | replacing the header felt data[0] changes only the first content entry: hash, chain, collections and owners stay the same |
| EventProperties.U256Agreement | apps/indexer/src/starknet_indexer/events.rs:148-154 | two u256 renderings, as (high, low) pairs, are equal exactly when their low felts and their high felts are equal |
| EventProperties.ContentInjective | apps/indexer/src/starknet_indexer/events.rs:76-77 | equal content lists come from equal data buffers |
| EventProperties.PackedHeaderFlags | apps/indexer/src/starknet_indexer/events.rs:116-142 | for a header packed as [version][kind][flag A][flag B] (low byte first), the transactions are a withdrawal iff flag B is odd and a burn iff flag A is odd |
| EventProperties.HeaderVectors | apps/indexer/src/starknet_indexer/events.rs:13-14 | headers 0x0101 and 0x0201 ask for nothing, 0x010101 for a burn, 0x01010101 for a withdrawal then a burn |
| EventProperties.BitTestNotByteTest | apps/indexer/src/starknet_indexer/events.rs:118-119 | a flag byte of 3 still asks for a withdrawal and a flag byte of 2 does not ask for a burn: the test is on one bit, not on the byte's value |

## Left out

- Text layout of the felt formatter: `{:#64x}` and `{:#32x}{:32x}` pass a width to `FieldElement`'s hex formatter, which is not part of this model. A felt renders as "0x" plus its minimal lower-case digits, with no padding. A u256 renders as an ordered (high, low) pair of such strings rather than one concatenated string.
- JSON serialisation of `content`: `serde_json::to_string` of a list of strings is modelled as the list of per-felt strings. Its `?` cannot fail on such a list and is not modelled.
- Field arithmetic of `FieldElement`: a felt is modelled as a natural number below the Starknet prime. Only the `u64` and `u128` conversions matter here.
- Storage types: `crate::storage` is not part of this model. The records hold only the fields this decoder fills in. `EventLabel` gets two L1 labels besides the two L2 ones to stand for the labels that take the `_` arm. `Event.block_timestamp` is taken to be a `u64`.
- `EmittedEvent` fields other than keys, data, block number and transaction hash are not read by the decoder and are not modelled.
- GetStoreData, U256Agreement: a u256 is rendered as a (high, low) pair of strings, which is injective. With an unpadded formatter the source's single concatenated string is not: (low 0x12, high 0x1) and (low 0x2, high 0x11) both give "0x112". So the hash clause of `Panics` is stricter than the source's `assert_eq!`, and `GetStoreData` does not cover the events whose hashes differ as felt pairs but agree as concatenated strings.
- Panics: indexing `keys[1..]`, `keys[3]` and `data[0]` out of range, and the two `assert_eq!` on the request hash, are excluded by the precondition `!Panics(ev)` of `GetStoreData` rather than modelled as outcomes.
- SelectorMatch: it proves that only one felt can match each selector constant. It does not prove that such a felt exists, that is, that each 65-character constant is a canonical rendering. Checking that would mean evaluating every character of the literal.
- The rest of the repository is not part of this model: the Solidity and Cairo bridge contracts (request codec, header codec, hasher, collection resolver, deployer, metadata extractor), the web UI and the indexer's I/O loop.
