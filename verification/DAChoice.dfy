/** The choice between calldata and blobs by cost per byte (op-batcher/batcher/channel_config_provider.go). */
module DAChoice {
  import opened Prelude
  import C = Channels

  const TX_GAS: nat := 21000
  const BLOB_GAS_PER_BLOB: nat := 0x2_0000
  const MAX_BLOB_DATA_SIZE: nat := (4 * 31 + 3) * 1024 - 4

  datatype ChannelConfig = ChannelConfig(base: C.Config, maxFrameSize: nat)

  /** Prices are big integers. */
  datatype Quote = Quote(tipCap: int, baseFee: int, blobBaseFee: int)

  /** A call of ChannelConfig; the quote is None when the price query fails. */
  datatype Call = Call(isPectra: bool, isThrottling: bool, quote: Option<Quote>)

  datatype Choice = Blobs | Calldata

  // ----- What the code computes, in 64-bit arithmetic up to the big integers -----

  function ToInt64(x: int): int {
    var w := Wrap64(x);
    if w < 0x8000_0000_0000_0000 then w else w - 0x1_0000_0000_0000_0000
  }

  function CalldataBytes(calldata: ChannelConfig): nat {
    Wrap64(calldata.maxFrameSize + 1)
  }

  function CalldataGas(numTokens: nat, isPectra: bool): int {
    ToInt64(TX_GAS + Wrap64(numTokens * (if isPectra then 10 else 4)))
  }

  function CalldataTxCost(numTokens: nat, q: Quote, isPectra: bool): int {
    CalldataGas(numTokens, isPectra) * (q.baseFee + q.tipCap)
  }

  function BlobTxCost(numBlobs: int, q: Quote): int {
    ToInt64(BLOB_GAS_PER_BLOB * numBlobs) * q.blobBaseFee + TX_GAS * (q.baseFee + q.tipCap)
  }

  function Cheaper(blob: ChannelConfig, calldata: ChannelConfig, isPectra: bool, q: Quote): Choice {
    var bytes := CalldataBytes(calldata);
    var calldataCost := CalldataTxCost(Wrap64(bytes * 4), q, isPectra);
    var blobCost := BlobTxCost(blob.base.targetNumFrames, q);
    var ay := blobCost * ToInt64(bytes);
    var bx := calldataCost * ToInt64(MAX_BLOB_DATA_SIZE * blob.base.targetNumFrames);
    if ay > bx then Calldata else Blobs
  }

  function Decide(blob: ChannelConfig, calldata: ChannelConfig, last: Choice, call: Call): Choice {
    if call.isThrottling then Blobs
    else match call.quote
      case None => last
      case Some(q) => Cheaper(blob, calldata, call.isPectra, q)
  }

  // ----- What it should compute: exact cost per byte -----

  /** EIP-7623 charges 10 gas per token from Pectra on, 4 before; a nonzero byte is four tokens. The version
      byte counts as data. */
  function ExactGas(bytes: nat, isPectra: bool): nat {
    TX_GAS + bytes * (if isPectra then 40 else 16)
  }

  ghost function CalldataPerByte(bytes: pos, isPectra: bool, q: Quote): real {
    (ExactGas(bytes, isPectra) * (q.baseFee + q.tipCap)) as real / bytes as real
  }

  ghost function BlobPerByte(numBlobs: pos, q: Quote): real {
    (BLOB_GAS_PER_BLOB * numBlobs * q.blobBaseFee + TX_GAS * (q.baseFee + q.tipCap)) as real
    / (MAX_BLOB_DATA_SIZE * numBlobs) as real
  }

  /** The choice is the exact one: calldata iff it is cheaper per byte, so equal costs go to blobs. */
  ghost predicate Exact(blob: ChannelConfig, calldata: ChannelConfig, isPectra: bool, q: Quote)
    requires blob.base.targetNumFrames >= 1
  {
    Cheaper(blob, calldata, isPectra, q) == Calldata <==>
      BlobPerByte(blob.base.targetNumFrames, q) > CalldataPerByte(calldata.maxFrameSize + 1, isPectra, q)
  }

  /** The gas of a blob transaction fits a signed 64-bit integer. */
  predicate BlobsFit(blob: ChannelConfig) {
    blob.base.targetNumFrames >= 1 && BLOB_GAS_PER_BLOB * blob.base.targetNumFrames < 0x8000_0000_0000_0000
  }

  /** So does the gas of a calldata transaction. */
  predicate CalldataFits(calldata: ChannelConfig, isPectra: bool) {
    ExactGas(calldata.maxFrameSize + 1, isPectra) < 0x8000_0000_0000_0000
  }

  lemma CrossMultiply(a: int, x: pos, b: int, y: pos)
    ensures a * y > b * x <==> a as real / x as real > b as real / y as real
  {
    var r, s := a as real / x as real, b as real / y as real;
    var xr, yr := x as real, y as real;
    assert a as real == r * xr && b as real == s * yr;
    assert (a * y) as real == a as real * yr == r * (xr * yr);
    assert (b * x) as real == b as real * xr == s * (xr * yr);
    ScaleOrder(r, s, xr * yr);
  }

  lemma ScaleOrder(r: real, s: real, k: real)
    requires k > 0.0
    ensures r * k > s * k <==> r > s
  {
    if r > s { assert (r - s) * k > 0.0; } else { assert (s - r) * k >= 0.0; }
  }

  lemma ScaleMono(a: int, b: int, k: int)
    requires a <= b && k >= 0
    ensures a * k <= b * k
  {
  }

  /** The exact comparison over the integers. */
  lemma ExactOverIntegers(n: pos, bytes: pos, isPectra: bool, q: Quote)
    ensures var g, x, price := BLOB_GAS_PER_BLOB * n, MAX_BLOB_DATA_SIZE * n, q.baseFee + q.tipCap;
      BlobPerByte(n, q) > CalldataPerByte(bytes, isPectra, q) <==>
        (g * q.blobBaseFee + TX_GAS * price) * bytes > ExactGas(bytes, isPectra) * price * x
  {
    var g, x, price := BLOB_GAS_PER_BLOB * n, MAX_BLOB_DATA_SIZE * n, q.baseFee + q.tipCap;
    CrossMultiply(g * q.blobBaseFee + TX_GAS * price, x, ExactGas(bytes, isPectra) * price, bytes);
  }

  /** What the code's integers are: sizes that fit are exact, and the calldata gas is the exact gas modulo 2^64. */
  lemma BlobSizes(blob: ChannelConfig)
    requires BlobsFit(blob)
    ensures var n := blob.base.targetNumFrames;
      && ToInt64(BLOB_GAS_PER_BLOB * n) == BLOB_GAS_PER_BLOB * n
      && ToInt64(MAX_BLOB_DATA_SIZE * n) == MAX_BLOB_DATA_SIZE * n
  {
  }

  /** A number as an unsigned and as a signed 64-bit integer. */
  lemma Signed(x: nat)
    ensures Wrap64(x) <= x && ToInt64(x) <= x && ToInt64(x) < 0x8000_0000_0000_0000
    ensures x < 0x1_0000_0000_0000_0000 ==> Wrap64(x) == x
    ensures x <= 0x1_0000_0000_0000_0000 ==>
      ToInt64(Wrap64(x)) == if x < 0x8000_0000_0000_0000 then x else x - 0x1_0000_0000_0000_0000
    ensures ToInt64(x) == x <==> x < 0x8000_0000_0000_0000
  {
  }

  lemma CalldataSizes(calldata: ChannelConfig, isPectra: bool)
    requires calldata.maxFrameSize <= MAX_UINT64
    ensures var bytes, gas := calldata.maxFrameSize + 1, CalldataGas(Wrap64(CalldataBytes(calldata) * 4), isPectra);
      && ToInt64(CalldataBytes(calldata)) ==
           (if bytes < 0x8000_0000_0000_0000 then bytes else bytes - 0x1_0000_0000_0000_0000)
      && gas < 0x8000_0000_0000_0000
      && (gas == ExactGas(bytes, isPectra) <==> CalldataFits(calldata, isPectra))
  {
    hide Wrap64, ToInt64;
    var bytes, price := calldata.maxFrameSize + 1, if isPectra then 10 else 4;
    var tokens := Wrap64(Wrap64(bytes) * 4);
    Signed(bytes);
    Signed(Wrap64(bytes) * 4);
    Signed(tokens * price);
    Signed(TX_GAS + Wrap64(tokens * price));
  }

  /** The integer comparison is exact for every quote iff the calldata gas fits. */
  lemma ExactIffFits(blob: ChannelConfig, calldata: ChannelConfig, isPectra: bool)
    requires BlobsFit(blob) && calldata.maxFrameSize <= MAX_UINT64
    ensures (forall q :: Exact(blob, calldata, isPectra, q)) <==> CalldataFits(calldata, isPectra)
  {
    hide Exact, CalldataFits;
    if CalldataFits(calldata, isPectra) {
      forall q ensures Exact(blob, calldata, isPectra, q) { ExactWhenFits(blob, calldata, isPectra, q); }
    } else {
      var q := Misjudged(blob, calldata, isPectra);
      assert !Exact(blob, calldata, isPectra, q);
    }
  }

  lemma ExactWhenFits(blob: ChannelConfig, calldata: ChannelConfig, isPectra: bool, q: Quote)
    requires BlobsFit(blob) && CalldataFits(calldata, isPectra)
    ensures Exact(blob, calldata, isPectra, q)
  {
    hide ToInt64, CalldataGas, CalldataBytes, Wrap64, BlobPerByte, CalldataPerByte;
    BlobSizes(blob);
    CalldataSizes(calldata, isPectra);
    ExactOverIntegers(blob.base.targetNumFrames, calldata.maxFrameSize + 1, isPectra, q);
  }

  /** A quote that is misjudged when the gas does not fit: one at which the exact costs tie or, for a frame size
      that is itself negative as a signed integer, one at which calldata is free. */
  lemma Misjudged(blob: ChannelConfig, calldata: ChannelConfig, isPectra: bool) returns (q: Quote)
    requires BlobsFit(blob) && calldata.maxFrameSize <= MAX_UINT64 && !CalldataFits(calldata, isPectra)
    ensures !Exact(blob, calldata, isPectra, q)
  {
    hide Exact;
    if calldata.maxFrameSize + 1 < 0x8000_0000_0000_0000 {
      q := MisjudgedTie(blob, calldata, isPectra);
    } else {
      q := Quote(0, 0, 1);
      FreeCalldata(blob, calldata, isPectra);
    }
  }

  lemma MisjudgedTie(blob: ChannelConfig, calldata: ChannelConfig, isPectra: bool) returns (q: Quote)
    requires BlobsFit(blob) && calldata.maxFrameSize + 1 < 0x8000_0000_0000_0000 && !CalldataFits(calldata, isPectra)
    ensures !Exact(blob, calldata, isPectra, q)
  {
    hide ToInt64, CalldataGas, CalldataBytes, Wrap64, BlobPerByte, CalldataPerByte, Cheaper, ExactGas, CalldataFits;
    var n, bytes := blob.base.targetNumFrames, calldata.maxFrameSize + 1;
    var g, x, gas := BLOB_GAS_PER_BLOB * n, MAX_BLOB_DATA_SIZE * n, ExactGas(bytes, isPectra);
    q := Quote(0, g * bytes, gas * x - TX_GAS * bytes);
    CalldataSizes(calldata, isPectra);
    FittingBlobs(blob, calldata, isPectra, q);
    ExactOverIntegers(n, bytes, isPectra, q);
    Understated(calldata, isPectra);
    Tie(g, x, bytes, gas, CalldataGas(Wrap64(CalldataBytes(calldata) * 4), isPectra));
  }

  lemma FreeCalldata(blob: ChannelConfig, calldata: ChannelConfig, isPectra: bool)
    requires BlobsFit(blob) && 0x8000_0000_0000_0000 <= calldata.maxFrameSize + 1 && calldata.maxFrameSize <= MAX_UINT64
    ensures !Exact(blob, calldata, isPectra, Quote(0, 0, 1))
  {
    hide ToInt64, CalldataGas, CalldataBytes, Wrap64, BlobPerByte, CalldataPerByte, Cheaper, ExactGas, CalldataFits;
    var q, n, bytes := Quote(0, 0, 1), blob.base.targetNumFrames, calldata.maxFrameSize + 1;
    CalldataSizes(calldata, isPectra);
    FittingBlobs(blob, calldata, isPectra, q);
    ExactOverIntegers(n, bytes, isPectra, q);
    NonPositive(BLOB_GAS_PER_BLOB * n, ToInt64(CalldataBytes(calldata)), bytes);
  }

  lemma NonPositive(g: int, y: int, bytes: int)
    requires g > 0 && y <= 0 && bytes > 0
    ensures g * y <= 0 && g * bytes > 0
  {
  }

  /** The comparison the code makes when the blob sizes fit. */
  lemma FittingBlobs(blob: ChannelConfig, calldata: ChannelConfig, isPectra: bool, q: Quote)
    requires BlobsFit(blob)
    ensures var n, y, price := blob.base.targetNumFrames, ToInt64(CalldataBytes(calldata)), q.baseFee + q.tipCap;
      var gas := CalldataGas(Wrap64(CalldataBytes(calldata) * 4), isPectra);
      Cheaper(blob, calldata, isPectra, q) == Calldata <==>
        (BLOB_GAS_PER_BLOB * n * q.blobBaseFee + TX_GAS * price) * y > gas * price * (MAX_BLOB_DATA_SIZE * n)
  {
    hide ToInt64, CalldataGas, CalldataBytes, Wrap64;
    BlobSizes(blob);
  }

  /** Gas that does not fit is understated. */
  lemma Understated(calldata: ChannelConfig, isPectra: bool)
    requires calldata.maxFrameSize <= MAX_UINT64 && !CalldataFits(calldata, isPectra)
    ensures CalldataGas(Wrap64(CalldataBytes(calldata) * 4), isPectra) < ExactGas(calldata.maxFrameSize + 1, isPectra)
  {
    hide ToInt64, CalldataGas, CalldataBytes, Wrap64, ExactGas;
    CalldataSizes(calldata, isPectra);
  }

  /** At that price the exact sides are equal, and understating the gas makes calldata look cheaper. */
  lemma Tie(g: int, x: int, y: int, gas: int, seen: int)
    requires g > 0 && x > 0 && y > 0 && seen < gas
    ensures var b, price := gas * x - TX_GAS * y, g * y;
      && (g * b + TX_GAS * price) * y == gas * price * x
      && (g * b + TX_GAS * price) * y > seen * price * x
  {
    var b, price := gas * x - TX_GAS * y, g * y;
    assert g * b + TX_GAS * price == g * (gas * x) by {
      assert g * b == g * (gas * x) - g * (TX_GAS * y);
    }
    var k := price * x;
    assert k > 0 && g * (gas * x) * y == gas * k;
    assert gas * price * x == gas * k && seen * price * x == seen * k;
    assert (gas - seen) * k > 0;
  }

  /** A choice is a sign: calldata iff a linear form in the two prices is positive. */
  lemma ChoiceIsSign(blob: ChannelConfig, calldata: ChannelConfig, isPectra: bool, q: Quote)
    ensures var y, n := ToInt64(CalldataBytes(calldata)), blob.base.targetNumFrames;
      var gas := CalldataGas(Wrap64(CalldataBytes(calldata) * 4), isPectra);
      var forBlobs, forCalldata := ToInt64(BLOB_GAS_PER_BLOB * n) * y, gas * ToInt64(MAX_BLOB_DATA_SIZE * n);
      Cheaper(blob, calldata, isPectra, q) == Calldata <==>
        forBlobs * q.blobBaseFee + (TX_GAS * y - forCalldata) * (q.baseFee + q.tipCap) > 0
  {
    hide ToInt64, CalldataGas, CalldataBytes, Wrap64;
    var y, n := ToInt64(CalldataBytes(calldata)), blob.base.targetNumFrames;
    var gas := CalldataGas(Wrap64(CalldataBytes(calldata) * 4), isPectra);
    var g, x := ToInt64(BLOB_GAS_PER_BLOB * n), ToInt64(MAX_BLOB_DATA_SIZE * n);
    var b, p := q.blobBaseFee, q.baseFee + q.tipCap;
    assert (g * b + TX_GAS * p) * y == (g * y) * b + (TX_GAS * y) * p;
    assert gas * p * x == (gas * x) * p;
  }

  predicate NonNegative(q: Quote) {
    q.tipCap >= 0 && q.baseFee >= 0 && q.blobBaseFee >= 0
  }

  /** At real prices a higher blob base fee never moves the choice towards blobs, iff the wrapped blob gas and frame
      size agree in sign, or calldata cannot be chosen at any price. */
  lemma MonotoneInBlobFee(blob: ChannelConfig, calldata: ChannelConfig, isPectra: bool)
    ensures var y, n := ToInt64(CalldataBytes(calldata)), blob.base.targetNumFrames;
      var gas := CalldataGas(Wrap64(CalldataBytes(calldata) * 4), isPectra);
      (forall q: Quote, fee: int ::
         NonNegative(q) && q.blobBaseFee <= fee && Cheaper(blob, calldata, isPectra, q) == Calldata ==>
           Cheaper(blob, calldata, isPectra, q.(blobBaseFee := fee)) == Calldata)
      <==> ToInt64(BLOB_GAS_PER_BLOB * n) * y >= 0 || TX_GAS * y <= gas * ToInt64(MAX_BLOB_DATA_SIZE * n)
  {
    hide ToInt64, CalldataGas, CalldataBytes, Wrap64, Cheaper;
    var y, n := ToInt64(CalldataBytes(calldata)), blob.base.targetNumFrames;
    var gas := CalldataGas(Wrap64(CalldataBytes(calldata) * 4), isPectra);
    var w, c := ToInt64(BLOB_GAS_PER_BLOB * n) * y, TX_GAS * y - gas * ToInt64(MAX_BLOB_DATA_SIZE * n);
    if w >= 0 || c <= 0 {
      forall q: Quote, fee: int |
        NonNegative(q) && q.blobBaseFee <= fee && Cheaper(blob, calldata, isPectra, q) == Calldata
        ensures Cheaper(blob, calldata, isPectra, q.(blobBaseFee := fee)) == Calldata
      {
        ChoiceIsSign(blob, calldata, isPectra, q);
        ChoiceIsSign(blob, calldata, isPectra, q.(blobBaseFee := fee));
        FeeRaises(w, c, q.blobBaseFee, fee, q.baseFee + q.tipCap);
      }
    } else {
      var q := Quote(0, 1, 0);
      ChoiceIsSign(blob, calldata, isPectra, q);
      ChoiceIsSign(blob, calldata, isPectra, q.(blobBaseFee := c));
      ScaleMono(w, -1, c);
      assert NonNegative(q) && q.blobBaseFee <= c;
    }
  }

  lemma FeeRaises(w: int, c: int, fee: int, fee': int, price: int)
    requires (w >= 0 || c <= 0) && 0 <= fee <= fee' && price >= 0 && w * fee + c * price > 0
    ensures w * fee' + c * price > 0
  {
    if w >= 0 {
      ScaleMono(fee, fee', w);
    } else {
      ScaleMono(w, 0, fee);
      ScaleMono(c, 0, price);
    }
  }

  /** The two sides of the comparison as the code computes them: what the blob base fee and the base fee weigh for a
      blob transaction, and what the base fee weighs for calldata. */
  function FeeWeight(blob: ChannelConfig, calldata: ChannelConfig): int {
    ToInt64(BLOB_GAS_PER_BLOB * blob.base.targetNumFrames) * ToInt64(CalldataBytes(calldata))
  }

  function BlobWeight(calldata: ChannelConfig): int {
    TX_GAS * ToInt64(CalldataBytes(calldata))
  }

  function CalldataWeight(blob: ChannelConfig, calldata: ChannelConfig, isPectra: bool): int {
    CalldataGas(Wrap64(CalldataBytes(calldata) * 4), isPectra) * ToInt64(MAX_BLOB_DATA_SIZE * blob.base.targetNumFrames)
  }

  /** The calldata floor price of Pectra never moves the choice towards calldata, iff it does not lower the weight of
      calldata as the code computes it or, where the blob base fee wraps to no weight at all, iff the base fee decides
      for calldata before Pectra or for blobs after it. */
  lemma PectraFavoursBlobs(blob: ChannelConfig, calldata: ChannelConfig)
    ensures
      var c, before, after :=
        BlobWeight(calldata), CalldataWeight(blob, calldata, false), CalldataWeight(blob, calldata, true);
      (forall q: Quote :: q.baseFee + q.tipCap >= 0 && Cheaper(blob, calldata, true, q) == Calldata ==>
                     Cheaper(blob, calldata, false, q) == Calldata)
      <==> before <= after || (FeeWeight(blob, calldata) == 0 && (c <= after || c > before))
  {
    hide Cheaper, FeeWeight, BlobWeight, CalldataWeight;
    var c, before, after :=
      BlobWeight(calldata), CalldataWeight(blob, calldata, false), CalldataWeight(blob, calldata, true);
    if before <= after || (FeeWeight(blob, calldata) == 0 && (c <= after || c > before)) {
      forall q: Quote | q.baseFee + q.tipCap >= 0 && Cheaper(blob, calldata, true, q) == Calldata
        ensures Cheaper(blob, calldata, false, q) == Calldata
      {
        PectraOnlyRaises(blob, calldata, q);
      }
    } else {
      var q := PectraUndercuts(blob, calldata);
    }
  }

  /** A choice in terms of these weights. */
  lemma ChoiceByWeights(blob: ChannelConfig, calldata: ChannelConfig, isPectra: bool, q: Quote)
    ensures Cheaper(blob, calldata, isPectra, q) == Calldata <==>
      FeeWeight(blob, calldata) * q.blobBaseFee
      + (BlobWeight(calldata) - CalldataWeight(blob, calldata, isPectra)) * (q.baseFee + q.tipCap) > 0
  {
    hide ToInt64, CalldataGas, CalldataBytes, Wrap64, Cheaper;
    ChoiceIsSign(blob, calldata, isPectra, q);
  }

  lemma PectraOnlyRaises(blob: ChannelConfig, calldata: ChannelConfig, q: Quote)
    requires q.baseFee + q.tipCap >= 0 && Cheaper(blob, calldata, true, q) == Calldata
    requires
      var c, before, after :=
        BlobWeight(calldata), CalldataWeight(blob, calldata, false), CalldataWeight(blob, calldata, true);
      before <= after || (FeeWeight(blob, calldata) == 0 && (c <= after || c > before))
    ensures Cheaper(blob, calldata, false, q) == Calldata
  {
    hide Cheaper, FeeWeight, BlobWeight, CalldataWeight;
    ChoiceByWeights(blob, calldata, true, q);
    ChoiceByWeights(blob, calldata, false, q);
    WeightsAgree(FeeWeight(blob, calldata), BlobWeight(calldata), CalldataWeight(blob, calldata, false),
                 CalldataWeight(blob, calldata, true), q.blobBaseFee, q.baseFee + q.tipCap);
  }

  lemma WeightsAgree(w: int, c: int, before: int, after: int, fee: int, price: int)
    requires price >= 0 && w * fee + (c - after) * price > 0
    requires before <= after || (w == 0 && (c <= after || c > before))
    ensures w * fee + (c - before) * price > 0
  {
    if before <= after {
      ScaleMono(c - after, c - before, price);
    } else {
      assert w * fee == 0;
      if c <= after { ScaleMono(c - after, 0, price); } else { ScaleMono(1, c - before, price); }
    }
  }

  lemma PectraUndercuts(blob: ChannelConfig, calldata: ChannelConfig) returns (q: Quote)
    requires
      var c, before, after :=
        BlobWeight(calldata), CalldataWeight(blob, calldata, false), CalldataWeight(blob, calldata, true);
      after < before && (FeeWeight(blob, calldata) != 0 || after < c <= before)
    ensures q.baseFee + q.tipCap >= 0
    ensures Cheaper(blob, calldata, true, q) == Calldata && Cheaper(blob, calldata, false, q) == Blobs
  {
    hide Cheaper, FeeWeight, BlobWeight, CalldataWeight;
    var w, c := FeeWeight(blob, calldata), BlobWeight(calldata);
    var before, after := CalldataWeight(blob, calldata, false), CalldataWeight(blob, calldata, true);
    q := if w > 0 then Quote(0, w, before - c) else if w < 0 then Quote(0, -w, c - before) else Quote(0, 1, 0);
    ChoiceByWeights(blob, calldata, true, q);
    ChoiceByWeights(blob, calldata, false, q);
    if w != 0 { Undercut(w, c, before, after); }
  }

  lemma Undercut(w: int, c: int, before: int, after: int)
    requires w != 0 && after < before
    ensures w * (before - c) + (c - before) * w == 0 && w * (c - before) + (c - before) * -w == 0
    ensures w > 0 ==> w * (before - c) + (c - after) * w > 0
    ensures w < 0 ==> w * (c - before) + (c - after) * -w > 0
  {
    assert w * (before - c) + (c - after) * w == w * (before - after);
    assert w * (c - before) + (c - after) * -w == -w * (before - after);
  }

  // ----- Runs -----

  /** The choices made by successive calls. */
  function Choices(blob: ChannelConfig, calldata: ChannelConfig, last: Choice, calls: seq<Call>): (r: seq<Choice>)
    ensures |r| == |calls|
    decreases |calls|
  {
    if calls == [] then []
    else
      var choice := Decide(blob, calldata, last, calls[0]);
      [choice] + Choices(blob, calldata, choice, calls[1..])
  }

  /** The call learns something: it is throttled or its price query succeeds. */
  predicate Informed(call: Call) {
    call.isThrottling || call.quote.Some?
  }

  /** The i-th call returns what the latest informed call decided, or blobs if there was none: in particular a
      failed price query returns what the previous call returned. */
  lemma {:induction false} ChoiceFollowsLastInformed(
      blob: ChannelConfig, calldata: ChannelConfig, last: Choice, calls: seq<Call>, i: nat)
    requires i < |calls|
    ensures var rs := Choices(blob, calldata, last, calls);
      && (!Informed(calls[i]) ==> rs[i] == if i == 0 then last else rs[i - 1])
      && (calls[i].isThrottling ==> rs[i] == Blobs)
      && (!calls[i].isThrottling && calls[i].quote.Some? ==>
            rs[i] == Cheaper(blob, calldata, calls[i].isPectra, calls[i].quote.value))
    ensures forall j :: 0 <= j <= i && (forall k :: j < k <= i ==> !Informed(calls[k])) ==>
      Choices(blob, calldata, last, calls)[i] == Choices(blob, calldata, last, calls)[j]
    decreases i
  {
    if i > 0 {
      ChoiceStep(blob, calldata, last, calls, i);
      ChoiceFollowsLastInformed(blob, calldata, last, calls, i - 1);
    }
  }

  lemma {:induction false} ChoiceStep(
      blob: ChannelConfig, calldata: ChannelConfig, last: Choice, calls: seq<Call>, i: nat)
    requires 0 < i < |calls|
    ensures var rs := Choices(blob, calldata, last, calls); rs[i] == Decide(blob, calldata, rs[i - 1], calls[i])
    decreases |calls|
  {
    if i > 1 {
      ChoiceStep(blob, calldata, Decide(blob, calldata, last, calls[0]), calls[1..], i - 1);
    }
  }

  // ----- The provider -----

  class DynamicEthChannelConfig {
    const blobConfig: ChannelConfig
    const calldataConfig: ChannelConfig
    /** The last answer. */
    var lastConfig: ChannelConfig

    constructor (blobConfig: ChannelConfig, calldataConfig: ChannelConfig)
      ensures this.blobConfig == blobConfig && this.calldataConfig == calldataConfig && lastConfig == blobConfig
    {
      this.blobConfig, this.calldataConfig, this.lastConfig := blobConfig, calldataConfig, blobConfig;
    }

    /** The last answer is the configuration of the last choice. */
    ghost predicate Remembers(last: Choice)
      reads this
    {
      lastConfig == if last.Blobs? then blobConfig else calldataConfig
    }

    /** A throttled call answers the blob configuration, a failed query what the previous call answered, and any other
        call within the bounds the configuration that is cheaper per byte, on a tie the blob one. Whatever the bounds,
        the answer is the one of the decision that follows from the last one. */
    method Provide(isPectra: bool, isThrottling: bool, quote: Option<Quote>) returns (cfg: ChannelConfig)
      modifies this
      ensures lastConfig == cfg
      ensures isThrottling ==> cfg == blobConfig
      ensures !isThrottling && quote.None? ==> cfg == old(lastConfig)
      ensures !isThrottling && quote.Some? && BlobsFit(blobConfig) && CalldataFits(calldataConfig, isPectra) ==>
        cfg == if BlobPerByte(blobConfig.base.targetNumFrames, quote.value)
                  > CalldataPerByte(calldataConfig.maxFrameSize + 1, isPectra, quote.value)
               then calldataConfig else blobConfig
      ensures forall last :: old(Remembers(last)) ==>
        Remembers(Decide(blobConfig, calldataConfig, last, Call(isPectra, isThrottling, quote)))
    {
      if isThrottling {
        lastConfig := blobConfig;
        return blobConfig;
      }
      if quote.None? { return lastConfig; }
      var q := quote.value;
      DecidesExactly(blobConfig, calldataConfig, isPectra, q);
      var calldataBytesPerTx := CalldataBytes(calldataConfig);
      var numBlobsPerTx := blobConfig.base.targetNumFrames;
      var calldataCost := CalldataTxCost(Wrap64(calldataBytesPerTx * 4), q, isPectra);
      var blobCost := BlobTxCost(numBlobsPerTx, q);
      var ay := blobCost * ToInt64(calldataBytesPerTx);
      var bx := calldataCost * ToInt64(MAX_BLOB_DATA_SIZE * numBlobsPerTx);
      if ay > bx {
        lastConfig := calldataConfig;
        return calldataConfig;
      }
      lastConfig := blobConfig;
      return blobConfig;
    }
  }

  lemma DecidesExactly(blob: ChannelConfig, calldata: ChannelConfig, isPectra: bool, q: Quote)
    ensures BlobsFit(blob) && CalldataFits(calldata, isPectra) ==>
      (Cheaper(blob, calldata, isPectra, q) == Calldata <==>
         BlobPerByte(blob.base.targetNumFrames, q) > CalldataPerByte(calldata.maxFrameSize + 1, isPectra, q))
  {
    hide BlobPerByte, CalldataPerByte, Cheaper, CalldataFits;
    if BlobsFit(blob) && CalldataFits(calldata, isPectra) { ExactWhenFits(blob, calldata, isPectra, q); }
  }
}
