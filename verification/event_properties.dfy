/** Properties of the Starknet event decoder that relate several calls. */
module EventProperties {
  import opened Wrappers
  import opened Felts
  import opened Hex
  import opened Bits
  import opened Storage
  import opened Events

  /** Comparing rendered selector keys with the constants singles out one felt per
      constant: the felt the constant denotes. */
  lemma SelectorMatch(key: Felt)
    ensures KindOf(key) == DepositInitiated ==> ParseHex(DEPOSIT_REQUEST_INITIATED_SELECTOR) == Some(key as nat)
    ensures KindOf(key) == WithdrawCompleted ==> ParseHex(WITHDRAW_REQUEST_COMPLETED_SELECTOR) == Some(key as nat)
  {
    HexRoundTrip(key);
  }

  /** For the same buffer, the deposit and the completed withdrawal are mirror
      images: same hash and content, source and destination swapped. */
  lemma MirrorImage(data: seq<Felt>)
    requires |data| >= FIXED_PART_LENGTH
    ensures RequestFromEventData(DepositInitiatedL2, data).Success?
    ensures RequestFromEventData(WithdrawCompletedL2, data).Success?
    ensures
      var deposit := RequestFromEventData(DepositInitiatedL2, data).value;
      var withdraw := RequestFromEventData(WithdrawCompletedL2, data).value;
      && deposit.chainSrc == Starknet
      && withdraw.chainSrc == Ethereum
      && deposit.hash == withdraw.hash
      && deposit.content == withdraw.content
      && deposit.collectionSrc == withdraw.collectionDst
      && deposit.collectionDst == withdraw.collectionSrc
      && deposit.from == withdraw.to
      && deposit.to == withdraw.from
  {
  }

  /** Apart from `content`, a request is read from the seven felts of the fixed part only. */
  lemma RequestReadsOnlyFixedPart(eventLabel: EventLabel, data1: seq<Felt>, data2: seq<Felt>)
    requires |data1| >= FIXED_PART_LENGTH && |data2| >= FIXED_PART_LENGTH
    requires data1[..FIXED_PART_LENGTH] == data2[..FIXED_PART_LENGTH]
    ensures RequestFromEventData(eventLabel, data1).Success? == RequestFromEventData(eventLabel, data2).Success?
    ensures RequestFromEventData(eventLabel, data1).Success? ==>
              RequestFromEventData(eventLabel, data1).value.(content := []) ==
              RequestFromEventData(eventLabel, data2).value.(content := [])
  {
    assert FixedPartOf(data1) == FixedPartOf(data2) by {
      forall i | 0 <= i < FIXED_PART_LENGTH
        ensures data1[i] == data2[i]
      {
        assert data1[i] == data1[..FIXED_PART_LENGTH][i];
      }
    }
  }

  /** The header felt never reaches the request: changing it changes only the first content entry. */
  lemma HeaderOnlyInContent(eventLabel: EventLabel, data: seq<Felt>, header: Felt)
    requires |data| >= FIXED_PART_LENGTH && IsRequestLabel(eventLabel)
    ensures
      var r := RequestFromEventData(eventLabel, data).value;
      RequestFromEventData(eventLabel, data[0 := header]) ==
        Success(r.(content := r.content[0 := FeltToHex(header)]))
  {
    var data' := data[0 := header];
    var c, c' := Content(data), Content(data');
    assert c' == c[0 := FeltToHex(header)] by {
      forall i | 0 <= i < |c|
        ensures c'[i] == c[0 := FeltToHex(header)][i]
      {
        CanonicalRoundTrip(c[i]);
        CanonicalRoundTrip(c'[i]);
      }
    }
    assert data'[1..][..2] == data[1..][..2];
  }

  /** Two (high, low) renderings agree exactly when their felts do. The source
      joins the two halves into one string, which this pair does not model; see
      "Left out" in the README. */
  lemma U256Agreement(felts1: seq<Felt>, felts2: seq<Felt>)
    requires |felts1| >= 2 && |felts2| >= 2
    ensures U256ToHex(felts1) == U256ToHex(felts2) <==> felts1[0] == felts2[0] && felts1[1] == felts2[1]
  {
  }

  /** The content list determines the data buffer it was rendered from. */
  lemma ContentInjective(data1: seq<Felt>, data2: seq<Felt>)
    requires Content(data1) == Content(data2)
    ensures data1 == data2
  {
  }

  /** A header packed as [version][kind][flag A][flag B], low byte first, asks for an
      automatic withdrawal exactly when flag B is odd and for a burn exactly when
      flag A is odd: the decoder tests bits, not byte values. */
  lemma PackedHeaderFlags(version: nat, kind: nat, flagA: nat, flagB: nat, reqHash: U256Hex, reqContent: seq<string>)
    requires version < 256 && kind < 256 && flagA < 256 && flagB < 256
    ensures GetXChainTxs(version + 0x100 * kind + 0x10000 * flagA + 0x1000000 * flagB, reqHash, reqContent) ==
              Success(AutoTxs(flagB % 2 == 1, flagA % 2 == 1, reqHash, reqContent))
  {
    var header := version + 0x100 * kind + 0x10000 * flagA + 0x1000000 * flagB;
    BytePowers();
    assert header / 0x1000000 == flagB;
    assert header / 0x10000 == flagA + 0x100 * flagB;
    assert ByteOf(header, 3) == flagB;
    assert ByteOf(header, 2) == flagA;
    MaskBits(header);
  }

  /** The header vectors of the bridge's header codec (version 1; kind, flag A and
      flag B in bytes 1 to 3) and the transactions each asks for. */
  lemma HeaderVectors(reqHash: U256Hex, reqContent: seq<string>)
    ensures GetXChainTxs(0x0101, reqHash, reqContent) == Success([])
    ensures GetXChainTxs(0x0201, reqHash, reqContent) == Success([])
    ensures GetXChainTxs(0x010101, reqHash, reqContent) == Success([AutoTx(BurnAuto, reqHash, reqContent)])
    ensures GetXChainTxs(0x01010101, reqHash, reqContent) ==
              Success([AutoTx(WithdrawAuto, reqHash, reqContent), AutoTx(BurnAuto, reqHash, reqContent)])
  {
    var withdraw, burn := AutoTx(WithdrawAuto, reqHash, reqContent), AutoTx(BurnAuto, reqHash, reqContent);
    assert !CanWithdrawAuto(0x0101) && !CanBurnAuto(0x0101) && !CanWithdrawAuto(0x0201) && !CanBurnAuto(0x0201);
    assert !CanWithdrawAuto(0x010101) && CanBurnAuto(0x010101);
    assert CanWithdrawAuto(0x01010101) && CanBurnAuto(0x01010101);
    assert AutoTxs(false, false, reqHash, reqContent) == [];
    assert AutoTxs(false, true, reqHash, reqContent) == [burn];
    assert AutoTxs(true, true, reqHash, reqContent) == [withdraw, burn];
  }

  /** The flag test reads one bit of a byte, not the byte's value: flag B = 3 asks
      for an automatic withdrawal, flag A = 2 does not ask for a burn. */
  lemma BitTestNotByteTest(reqHash: U256Hex, reqContent: seq<string>)
    ensures GetXChainTxs(0x03000101, reqHash, reqContent) == Success([AutoTx(WithdrawAuto, reqHash, reqContent)])
    ensures GetXChainTxs(0x02020101, reqHash, reqContent) == Success([])
  {
    assert CanWithdrawAuto(0x03000101) && !CanBurnAuto(0x03000101);
    assert !CanWithdrawAuto(0x02020101) && !CanBurnAuto(0x02020101);
    assert AutoTxs(true, false, reqHash, reqContent) == [AutoTx(WithdrawAuto, reqHash, reqContent)];
    assert AutoTxs(false, false, reqHash, reqContent) == [];
  }
}
