/** The batcher's channel and its embedded channel builder, as values
    (op-batcher/batcher/channel.go, channel_builder.go, channel_config.go, tx_data.go). */
module Channels {
  import opened Prelude

  /** An L2 block: hash 0 is Go's zero hash. `l1Origin` is the number of its L1 origin. */
  datatype Block = Block(hash: nat, parent: nat, number: nat, l1Origin: nat)

  datatype Config = Config(
    useBlobs: bool, targetNumFrames: int, channelTimeout: nat,
    maxChannelDuration: nat, subSafetyMargin: nat, seqWindowSize: nat)
  {
    function MaxFramesPerTx(): int {
      if useBlobs then targetNumFrames else 1
    }

    /** The part of Check that the channel logic relies on. */
    predicate Checked() {
      subSafetyMargin <= channelTimeout && 1 <= targetNumFrames
    }
  }

  datatype Reason =
    | CompressorFull | TooManyRLPBytes | MaxFrameIndex | MaxDurationReached
    | ChannelTimeoutClose | SeqWindowClose | Terminated

  datatype FrameId = FrameId(ch: nat, number: nat)
  datatype Frame = Frame(id: FrameId, data: Bytes)
  type TxId = seq<FrameId>

  const MAX_FRAMES: nat := 0xFFFF

  /** What the channel out answers to AddBlock. */
  datatype AddReply = Accepted(full: Option<Reason>) | Refused(reason: Reason) | Broken
  datatype AddResult = BlockAdded | ChannelFull | AddFailed

  /** What the channel out produces during one OutputFrames call: whether Close succeeds, the
      frames' contents in order, and whether the loop ends normally. */
  datatype FrameFeed = FrameFeed(closes: bool, chunks: seq<Bytes>, ok: bool)

  datatype Deadline = Deadline(at: nat, reason: Reason)

  /** What happened to a channel so far; recorded only, no operation reads it. */
  datatype History = History(draws: seq<seq<Frame>>, deadlines: seq<Deadline>, inclusions: seq<nat>,
                             output: seq<Bytes>)

  datatype Channel = Channel(
    id: nat, cfg: Config,
    timeout: nat, timeoutReason: Reason,
    full: Option<Reason>, closed: bool,
    blocks: seq<Block>, latestL1: nat, latestL2: nat,
    frames: seq<Frame>, frameCursor: nat,
    pending: map<TxId, seq<Frame>>, confirmed: map<TxId, nat>,
    minInclusion: nat, maxInclusion: nat,
    history: History)
  {
    predicate IsFull() { full.Some? }

    /** Full, and its channel out closed: no frame will ever be added. */
    predicate Sealed() { full.Some? && closed }

    function FramesPerTx(): int { cfg.MaxFramesPerTx() }

    predicate HasPendingFrame() { frameCursor < |frames| }

    function PendingFrames(): int { |frames| - frameCursor }

    predicate HasTxData() {
      if IsFull() || !cfg.useBlobs then HasPendingFrame() else PendingFrames() >= FramesPerTx()
    }

    predicate NoneSubmitted() { |confirmed| == 0 && |pending| == 0 }

    predicate IsFullySubmitted() { IsFull() && |pending| + PendingFrames() == 0 }

    predicate IsTimedOut() {
      |confirmed| > 0 && Wrap64(maxInclusion - minInclusion) >= cfg.channelTimeout
    }
  }

  // ----- Operations -----

  function UpdateTimeout(c: Channel, at: nat, reason: Reason): Channel {
    var sooner := c.timeout == 0 || c.timeout > at;
    c.(timeout := if sooner then at else c.timeout,
       timeoutReason := if sooner then reason else c.timeoutReason,
       history := c.history.(deadlines := c.history.deadlines + [Deadline(at, reason)]))
  }

  function NewChannel(id: nat, cfg: Config, latestL1: nat): Channel {
    var c := Channel(id, cfg, 0, Terminated, None, false, [], 0, 0, [], 0, map[], map[],
                     MAX_UINT64, 0, History([], [], [], []));
    if cfg.maxChannelDuration == 0 then c
    else UpdateTimeout(c, Wrap64(latestL1 + cfg.maxChannelDuration), MaxDurationReached)
  }

  function AddBlock(c: Channel, b: Block, reply: AddReply): (Channel, AddResult) {
    if c.IsFull() then (c, ChannelFull)
    else if c.closed then (c, AddFailed)
    else match reply
      case Refused(reason) => (c.(full := Some(reason)), ChannelFull)
      case Broken => (c, AddFailed)
      case Accepted(full) => (EnqueueBlock(c, b, full), BlockAdded)
  }

  function EnqueueBlock(c: Channel, b: Block, full: Option<Reason>): Channel {
    var c1 := UpdateTimeout(c.(blocks := c.blocks + [b]),
                            Wrap64(b.l1Origin + c.cfg.seqWindowSize - c.cfg.subSafetyMargin), SeqWindowClose);
    c1.(latestL1 := Max(c.latestL1, b.l1Origin),
        latestL2 := Max(c.latestL2, b.number),
        full := if full.Some? then full else c.full)
  }

  function CheckTimeout(c: Channel, l1Number: nat): Channel {
    if c.timeout != 0 && !c.IsFull() && l1Number >= c.timeout then c.(full := Some(c.timeoutReason)) else c
  }

  function Close(c: Channel): Channel {
    if c.IsFull() then c else c.(full := Some(Terminated))
  }

  /** One frame from the channel out; its number is the uint16 frame counter. */
  function OutputFrame(c: Channel, data: Bytes): Channel {
    var number := |c.frames| % 0x1_0000;
    c.(frames := c.frames + [Frame(FrameId(c.id, number), data)],
       full := if number == 0xFFFF then Some(MaxFrameIndex) else c.full,
       history := c.history.(output := c.history.output + [data]))
  }

  function OutputAll(c: Channel, chunks: seq<Bytes>): Channel {
    if |chunks| == 0 then c
    else OutputFrame(OutputAll(c, chunks[..|chunks| - 1]), chunks[|chunks| - 1])
  }

  function OutputFrames(c: Channel, feed: FrameFeed): (Channel, bool) {
    if c.IsFull() then
      if c.closed then (c, false)
      else if !feed.closes then (c.(closed := true), false)
      else (OutputAll(c.(closed := true), feed.chunks), feed.ok)
    else (OutputAll(c, feed.chunks), feed.ok)
  }

  function IdOf(tx: seq<Frame>): TxId {
    seq(|tx|, i requires 0 <= i < |tx| => tx[i].id)
  }

  /** The frames starting at `s` that one transaction of at most `n` frames carries. */
  function GroupAt(frames: seq<Frame>, n: pos, s: nat): seq<Frame>
    requires s <= |frames|
  {
    frames[s..Min(s + n, |frames|)]
  }

  function NextTxData(c: Channel): (Channel, seq<Frame>) {
    var tx :=
      if c.HasPendingFrame() && 1 <= c.FramesPerTx() then GroupAt(c.frames, c.FramesPerTx(), c.frameCursor) else [];
    (c.(frameCursor := c.frameCursor + |tx|,
        pending := c.pending[IdOf(tx) := tx],
        history := c.history.(draws := c.history.draws + [tx])),
     tx)
  }

  /** None when RewindFrameCursor panics. */
  function RewindFrameCursor(c: Channel, f: Frame): Option<Channel> {
    if |c.frames| <= f.id.number || |c.frames[f.id.number].data| != |f.data| || c.frames[f.id.number].id.ch != f.id.ch
    then None
    else Some(c.(frameCursor := if c.frameCursor > f.id.number then f.id.number else c.frameCursor))
  }

  function TxFailed(c: Channel, id: TxId): Option<Channel> {
    if id !in c.pending then Some(c)
    else if |c.pending[id]| == 0 then None
    else match RewindFrameCursor(c, c.pending[id][0])
      case None => None
      case Some(c1) => Some(c1.(pending := c1.pending - {id}))
  }

  function RecordInclusion(c: Channel, id: TxId, inclusion: nat): Channel {
    c.(pending := c.pending - {id}, confirmed := c.confirmed[id := inclusion],
       minInclusion := Min(c.minInclusion, inclusion), maxInclusion := Max(c.maxInclusion, inclusion),
       history := c.history.(inclusions := c.history.inclusions + [inclusion]))
  }

  function TxConfirmed(c: Channel, id: TxId, inclusion: nat): Channel {
    if id !in c.pending then c
    else UpdateTimeout(RecordInclusion(c, id, inclusion),
                       Wrap64(inclusion + c.cfg.channelTimeout - c.cfg.subSafetyMargin), ChannelTimeoutClose)
  }

  // ----- Alignment: the starts 0, n, 2n, ... -----

  predicate Aligned(s: nat, n: pos) {
    s == 0 || (s >= n && Aligned(s - n, n))
  }

  lemma {:induction false} AlignedApart(s: nat, t: nat, n: pos)
    requires Aligned(s, n) && Aligned(t, n) && s < t
    ensures s + n <= t
  {
    if s != 0 { AlignedApart(s - n, t - n, n); }
  }

  lemma {:induction false} AlignedIsMultiple(s: nat, n: pos) returns (k: nat)
    requires Aligned(s, n)
    ensures s == k * n
  {
    k := 0;
    if s != 0 {
      k := AlignedIsMultiple(s - n, n);
      k := k + 1;
    }
  }

  /** Every index has an aligned start at most n - 1 below it. */
  lemma {:induction false} AlignedBelow(i: nat, n: pos) returns (s: nat)
    ensures Aligned(s, n) && s <= i < s + n
  {
    if i < n { s := 0; }
    else {
      s := AlignedBelow(i - n, n);
      s := s + n;
    }
  }

  // ----- Invariant of a single channel -----

  /** `tx` is the aligned group of frames beginning at its first frame, and short only when the
      channel can no longer grow. */
  predicate IsGroup(frames: seq<Frame>, n: pos, sealed: bool, tx: seq<Frame>) {
    |tx| > 0 && tx[0].id.number < |frames| && Aligned(tx[0].id.number, n)
    && tx == GroupAt(frames, n, tx[0].id.number) && (|tx| == n || sealed)
  }

  predicate IsGroupId(frames: seq<Frame>, n: pos, sealed: bool, id: TxId) {
    |id| > 0 && id[0].number < |frames| && IsGroup(frames, n, sealed, GroupAt(frames, n, id[0].number))
    && id == IdOf(GroupAt(frames, n, id[0].number))
  }

  predicate Numbered(ch: nat, frames: seq<Frame>) {
    |frames| <= MAX_FRAMES && forall i :: 0 <= i < |frames| ==> frames[i].id == FrameId(ch, i)
  }

  /** The frames carry what the channel out produced, in order. */
  predicate Carries(frames: seq<Frame>, output: seq<Bytes>) {
    |frames| == |output| && forall i :: 0 <= i < |frames| ==> frames[i].data == output[i]
  }

  /** The newest L1 origin and the largest number among the blocks. */
  predicate Newest(blocks: seq<Block>, l1: nat, l2: nat) {
    && (forall i :: 0 <= i < |blocks| ==> blocks[i].l1Origin <= l1 && blocks[i].number <= l2)
    && (if blocks == [] then l1 == l2 == 0
        else (exists i :: 0 <= i < |blocks| && blocks[i].l1Origin == l1)
             && (exists i :: 0 <= i < |blocks| && blocks[i].number == l2))
  }

  predicate CursorAligned(frames: seq<Frame>, n: pos, sealed: bool, cursor: nat) {
    cursor <= |frames| && (Aligned(cursor, n) || (cursor == |frames| && sealed))
  }

  predicate AllGroups(frames: seq<Frame>, n: pos, sealed: bool, txs: seq<seq<Frame>>) {
    forall i :: 0 <= i < |txs| ==> IsGroup(frames, n, sealed, txs[i])
  }

  predicate PendingAligned(frames: seq<Frame>, n: pos, sealed: bool, pending: map<TxId, seq<Frame>>) {
    forall id :: id in pending ==> IsGroup(frames, n, sealed, pending[id]) && id == IdOf(pending[id])
  }

  predicate ConfirmedAligned(frames: seq<Frame>, n: pos, sealed: bool, confirmed: set<TxId>) {
    forall id :: id in confirmed ==> IsGroupId(frames, n, sealed, id)
  }

  /** Every aligned group below the cursor is in one of the transactions `ids`. */
  predicate Covered(frames: seq<Frame>, n: pos, cursor: nat, ids: set<TxId>)
    requires cursor <= |frames|
  {
    forall s: nat {:trigger GroupAt(frames, n, s)} :: Aligned(s, n) && s < cursor ==> IdOf(GroupAt(frames, n, s)) in ids
  }

  predicate MinDeadline(ds: seq<Deadline>, timeout: nat, reason: Reason) {
    if ds == [] then timeout == 0
    else (forall i :: 0 <= i < |ds| ==> timeout <= ds[i].at) && Deadline(timeout, reason) in ds
  }

  /** No deadline is 0, which means unset. */
  predicate AllSet(ds: seq<Deadline>) {
    forall i :: 0 <= i < |ds| ==> ds[i].at > 0
  }

  predicate InclusionsRecorded(ns: seq<nat>, confirmed: map<TxId, nat>, lo: nat, hi: nat) {
    && (ns == [] <==> confirmed == map[])
    && lo <= MAX_UINT64 && hi <= MAX_UINT64
    && (forall i :: 0 <= i < |ns| ==> lo <= ns[i] <= hi)
    && (if ns == [] then lo == MAX_UINT64 && hi == 0 else lo in ns && hi in ns)
  }

  /** The frames and transactions of a channel: numbering, aligned transactions, nothing lost below the cursor. */
  predicate TxInv(c: Channel)
    requires 1 <= c.FramesPerTx()
  {
    var n, sealed := c.FramesPerTx(), c.Sealed();
    && Numbered(c.id, c.frames)
    && CursorAligned(c.frames, n, sealed, c.frameCursor)
    && PendingAligned(c.frames, n, sealed, c.pending)
    && ConfirmedAligned(c.frames, n, sealed, c.confirmed.Keys)
    && AllGroups(c.frames, n, sealed, c.history.draws)
    && Covered(c.frames, n, c.frameCursor, c.pending.Keys + c.confirmed.Keys)
  }

  /** `timeout` is the earliest registered deadline and min/maxInclusion span the recorded inclusions. */
  predicate TimeInv(c: Channel) {
    && (AllSet(c.history.deadlines) ==> MinDeadline(c.history.deadlines, c.timeout, c.timeoutReason))
    && InclusionsRecorded(c.history.inclusions, c.confirmed, c.minInclusion, c.maxInclusion)
  }

  predicate Inv(c: Channel) {
    c.cfg.Checked() && TxInv(c) && TimeInv(c) && Carries(c.frames, c.history.output)
    && Newest(c.blocks, c.latestL1, c.latestL2) && (c.closed ==> c.full.Some?)
  }

  // ----- Every operation keeps the invariant -----

  lemma DeadlineAdded(ds: seq<Deadline>, timeout: nat, reason: Reason, d: Deadline)
    requires AllSet(ds) ==> MinDeadline(ds, timeout, reason)
    requires AllSet(ds + [d])
    ensures timeout == 0 || timeout > d.at ==> MinDeadline(ds + [d], d.at, d.reason)
    ensures !(timeout == 0 || timeout > d.at) ==> MinDeadline(ds + [d], timeout, reason)
  {
    var ds' := ds + [d];
    assert forall i :: 0 <= i < |ds| ==> ds[i] == ds'[i];
    assert ds'[|ds|] == d;
  }

  lemma UpdateTimeoutInv(c: Channel, at: nat, reason: Reason)
    requires TimeInv(c)
    ensures TimeInv(UpdateTimeout(c, at, reason))
  {
    if AllSet(c.history.deadlines + [Deadline(at, reason)]) {
      DeadlineAdded(c.history.deadlines, c.timeout, c.timeoutReason, Deadline(at, reason));
    }
  }

  lemma TxInvSame(c: Channel, c': Channel)
    requires 1 <= c.FramesPerTx() && TxInv(c) && c'.cfg == c.cfg && c'.Sealed() == c.Sealed()
    requires c'.id == c.id && c'.frames == c.frames && c'.frameCursor == c.frameCursor
    requires c'.pending == c.pending && c'.confirmed == c.confirmed && c'.history.draws == c.history.draws
    ensures TxInv(c')
  {
  }

  lemma NewChannelInv(id: nat, cfg: Config, latestL1: nat)
    requires cfg.Checked()
    ensures Inv(NewChannel(id, cfg, latestL1))
  {
    var c := NewChannel(id, cfg.(maxChannelDuration := 0), latestL1).(cfg := cfg);
    UpdateTimeoutInv(c, Wrap64(latestL1 + cfg.maxChannelDuration), MaxDurationReached);
  }

  lemma SealingKeepsGroups(frames: seq<Frame>, n: pos)
    ensures forall tx {:trigger IsGroup(frames, n, true, tx)} ::
      IsGroup(frames, n, false, tx) ==> IsGroup(frames, n, true, tx)
    ensures forall id {:trigger IsGroupId(frames, n, true, id)} ::
      IsGroupId(frames, n, false, id) ==> IsGroupId(frames, n, true, id)
  {
  }

  /** Setting the full reason, or closing the channel out, keeps the invariant. */
  lemma SetFullInv(c: Channel, full: Option<Reason>, closed: bool)
    requires Inv(c) && (c.full.Some? ==> full.Some?) && (c.closed ==> closed) && (closed ==> full.Some?)
    ensures Inv(c.(full := full, closed := closed))
  {
    SealingKeepsGroups(c.frames, c.FramesPerTx());
  }

  lemma EnqueueBlockInv(c: Channel, b: Block, full: Option<Reason>)
    requires Inv(c)
    ensures Inv(EnqueueBlock(c, b, full))
  {
    var c' := EnqueueBlock(c, b, full);
    UpdateTimeoutInv(c, Wrap64(b.l1Origin + c.cfg.seqWindowSize - c.cfg.subSafetyMargin), SeqWindowClose);
    SetFullInv(c, c'.full, c.closed);
    TxInvSame(c.(full := c'.full), c');
    NewestGrows(c.blocks, c.latestL1, c.latestL2, b);
  }

  lemma NewestGrows(blocks: seq<Block>, l1: nat, l2: nat, b: Block)
    requires Newest(blocks, l1, l2)
    ensures Newest(blocks + [b], Max(l1, b.l1Origin), Max(l2, b.number))
  {
    var blocks' := blocks + [b];
    assert blocks'[|blocks|] == b;
    if blocks != [] {
      var i :| 0 <= i < |blocks| && blocks[i].l1Origin == l1;
      var j :| 0 <= j < |blocks| && blocks[j].number == l2;
      assert blocks'[i].l1Origin == l1 && blocks'[j].number == l2;
    }
  }

  lemma AddBlockInv(c: Channel, b: Block, reply: AddReply)
    requires Inv(c)
    ensures Inv(AddBlock(c, b, reply).0)
  {
    if !c.IsFull() && !c.closed {
      match reply
      case Refused(reason) => SetFullInv(c, Some(reason), c.closed);
      case Broken =>
      case Accepted(full) => EnqueueBlockInv(c, b, full);
    }
  }

  lemma CloseInv(c: Channel)
    requires Inv(c)
    ensures Inv(Close(c))
  {
    SetFullInv(c, Some(Terminated), c.closed);
  }

  lemma CheckTimeoutInv(c: Channel, l1Number: nat)
    requires Inv(c)
    ensures Inv(CheckTimeout(c, l1Number))
  {
    SetFullInv(c, Some(c.timeoutReason), c.closed);
  }

  /** The frames of a channel for the chunks of its channel out, numbered from `from` on in 16 bits. */
  function Framed(ch: nat, from: nat, chunks: seq<Bytes>): seq<Frame> {
    seq(|chunks|, i requires 0 <= i < |chunks| => Frame(FrameId(ch, (from + i) % 0x1_0000), chunks[i]))
  }

  /** One of the frames has the last number that 16 bits can hold. */
  predicate HitsLimit(frames: seq<Frame>) {
    exists i :: 0 <= i < |frames| && frames[i].id.number == 0xFFFF
  }

  lemma HitsFrom(frames: seq<Frame>, more: seq<Frame>)
    ensures HitsLimit(more) <==> exists i :: |frames| <= i < |frames + more| && (frames + more)[i].id.number == 0xFFFF
  {
    var all := frames + more;
    if i :| 0 <= i < |more| && more[i].id.number == 0xFFFF { assert all[|frames| + i] == more[i]; }
    if i :| |frames| <= i < |all| && all[i].id.number == 0xFFFF { assert more[i - |frames|] == all[i]; }
  }

  lemma HitsNext(frames: seq<Frame>, f: Frame)
    ensures HitsLimit(frames + [f]) <==> HitsLimit(frames) || f.id.number == 0xFFFF
  {
    var frames' := frames + [f];
    assert frames'[|frames|] == f && forall i :: 0 <= i < |frames| ==> frames'[i] == frames[i];
  }

  lemma FramedNext(ch: nat, from: nat, front: seq<Bytes>, last: Bytes)
    ensures Framed(ch, from, front + [last])
         == Framed(ch, from, front) + [Frame(FrameId(ch, (from + |front|) % 0x1_0000), last)]
  {
  }

  /** Outputting frames appends one per chunk and changes nothing else, except that the last possible frame number
      fills the channel. */
  lemma {:induction false} OutputAllExactly(c: Channel, chunks: seq<Bytes>)
    ensures OutputAll(c, chunks) ==
      c.(frames := c.frames + Framed(c.id, |c.frames|, chunks),
         full := if HitsLimit(Framed(c.id, |c.frames|, chunks)) then Some(MaxFrameIndex) else c.full,
         history := c.history.(output := c.history.output + chunks))
  {
    hide HitsLimit, Framed;
    if |chunks| == 0 {
      FramedNothing(c.id, |c.frames|);
      assert c.frames + [] == c.frames && c.history.output + chunks == c.history.output;
    } else {
      var front, last := chunks[..|chunks| - 1], chunks[|chunks| - 1];
      OutputAllExactly(c, front);
      assert chunks == front + [last];
      var added, f := Framed(c.id, |c.frames|, front), Frame(FrameId(c.id, (|c.frames| + |front|) % 0x1_0000), last);
      HitsNext(added, f);
      FramedNext(c.id, |c.frames|, front, last);
      FramedLength(c.id, |c.frames|, front);
      assert (c.frames + added) + [f] == c.frames + (added + [f]);
      assert (c.history.output + front) + [last] == c.history.output + chunks;
    }
  }

  lemma FramedNothing(ch: nat, from: nat)
    ensures Framed(ch, from, []) == [] && !HitsLimit(Framed(ch, from, []))
  {
  }

  lemma FramedLength(ch: nat, from: nat, chunks: seq<Bytes>)
    ensures |Framed(ch, from, chunks)| == |chunks|
  {
  }

  /** Below the limit the numbers do not wrap. */
  lemma FramedWithin(ch: nat, frames: seq<Frame>, chunks: seq<Bytes>, output: seq<Bytes>)
    requires Numbered(ch, frames) && |frames| + |chunks| <= MAX_FRAMES && Carries(frames, output)
    ensures var added := Framed(ch, |frames|, chunks);
      && !HitsLimit(added) && Numbered(ch, frames + added) && Carries(frames + added, output + chunks)
  {
  }

  lemma OutputAllRest(c: Channel, chunks: seq<Bytes>)
    ensures var c' := OutputAll(c, chunks); c' == c.(frames := c'.frames, full := c'.full, history := c'.history)
    ensures OutputAll(c, chunks).history == c.history.(output := c.history.output + chunks)
  {
    OutputAllExactly(c, chunks);
  }

  lemma OutputAllFrames(c: Channel, chunks: seq<Bytes>)
    requires Numbered(c.id, c.frames) && |c.frames| + |chunks| <= MAX_FRAMES
    requires Carries(c.frames, c.history.output)
    ensures var c' := OutputAll(c, chunks);
      && |c'.frames| == |c.frames| + |chunks| && c.frames <= c'.frames
      && Numbered(c.id, c'.frames) && Carries(c'.frames, c'.history.output)
      && c' == c.(frames := c'.frames, history := c.history.(output := c'.history.output))
  {
    hide HitsLimit, Framed, Numbered, Carries;
    OutputAllExactly(c, chunks);
    FramedWithin(c.id, c.frames, chunks, c.history.output);
    FramedLength(c.id, |c.frames|, chunks);
  }

  /** Full groups are not disturbed by appending frames. */
  lemma GroupsGrow(frames: seq<Frame>, frames': seq<Frame>, n: pos, s: nat)
    requires frames <= frames' && s + n <= |frames|
    ensures GroupAt(frames', n, s) == GroupAt(frames, n, s)
  {
  }

  lemma IsGroupGrow(frames: seq<Frame>, frames': seq<Frame>, n: pos, sealed: bool)
    requires frames <= frames'
    ensures forall tx {:trigger IsGroup(frames', n, sealed, tx)} ::
      IsGroup(frames, n, false, tx) ==> IsGroup(frames', n, sealed, tx)
    ensures forall id {:trigger IsGroupId(frames', n, sealed, id)} ::
      IsGroupId(frames, n, false, id) ==> IsGroupId(frames', n, sealed, id)
  {
    forall tx: seq<Frame> | IsGroup(frames, n, false, tx) ensures IsGroup(frames', n, sealed, tx) {
      GroupsGrow(frames, frames', n, tx[0].id.number);
    }
    forall id: TxId | IsGroupId(frames, n, false, id) ensures IsGroupId(frames', n, sealed, id) {
      GroupsGrow(frames, frames', n, id[0].number);
    }
  }

  lemma CoveredGrow(frames: seq<Frame>, frames': seq<Frame>, n: pos, cursor: nat, ids: set<TxId>)
    requires frames <= frames' && cursor <= |frames| && Aligned(cursor, n) && Covered(frames, n, cursor, ids)
    ensures Covered(frames', n, cursor, ids)
  {
    forall s: nat | Aligned(s, n) && s < cursor ensures IdOf(GroupAt(frames', n, s)) in ids {
      AlignedApart(s, cursor, n);
      GroupsGrow(frames, frames', n, s);
    }
  }

  /** A channel that is not sealed has only full groups, so it may grow. */
  lemma GrowInv(c: Channel, frames': seq<Frame>, closed: bool, output: seq<Bytes>)
    requires Inv(c) && !c.Sealed() && c.frames <= frames' && Numbered(c.id, frames') && Carries(frames', output)
    requires closed ==> c.full.Some?
    ensures Inv(c.(frames := frames', closed := closed, history := c.history.(output := output)))
  {
    var n := c.FramesPerTx();
    var c' := c.(frames := frames', closed := closed);
    IsGroupGrow(c.frames, frames', n, c'.Sealed());
    CoveredGrow(c.frames, frames', n, c.frameCursor, c.pending.Keys + c.confirmed.Keys);
  }

  lemma OutputFramesInv(c: Channel, feed: FrameFeed)
    requires Inv(c) && |c.frames| + |feed.chunks| <= MAX_FRAMES
    ensures Inv(OutputFrames(c, feed).0)
    ensures OutputFrames(c, feed).0.full == c.full
    ensures c.IsFull() ==> OutputFrames(c, feed).0.closed
  {
    if !c.Sealed() {
      var closed := c.closed || c.IsFull();
      var c0 := c.(closed := closed);
      OutputAllFrames(c0, feed.chunks);
      var c' := OutputAll(c0, feed.chunks);
      GrowInv(c, c'.frames, closed, c'.history.output);
      GrowInv(c, c.frames, closed, c.history.output);
    }
  }

  lemma IdOfGroup(ch: nat, frames: seq<Frame>, n: pos, s: nat)
    requires Numbered(ch, frames) && s < |frames|
    ensures |GroupAt(frames, n, s)| > 0
    ensures IdOf(GroupAt(frames, n, s))[0] == FrameId(ch, s) == GroupAt(frames, n, s)[0].id
  {
  }

  /** The next transaction is the aligned group at the cursor. */
  lemma NextTxDataGroup(c: Channel)
    requires Inv(c) && c.HasTxData() && (c.IsFull() ==> c.closed)
    ensures Aligned(c.frameCursor, c.FramesPerTx()) && c.frameCursor < |c.frames|
    ensures IsGroup(c.frames, c.FramesPerTx(), c.Sealed(), NextTxData(c).1)
    ensures NextTxData(c).1[0].id == FrameId(c.id, c.frameCursor)
  {
    IdOfGroup(c.id, c.frames, c.FramesPerTx(), c.frameCursor);
  }

  lemma NextTxDataInv(c: Channel)
    requires Inv(c) && c.HasTxData() && (c.IsFull() ==> c.closed)
    ensures Inv(NextTxData(c).0)
  {
    hide TxInv, IsGroup, GroupAt, IdOf;
    NextTxDataGroup(c);
    DrawInv(c, NextTxData(c).0, NextTxData(c).1);
  }

  lemma DrawInv(c: Channel, c': Channel, tx: seq<Frame>)
    requires c.cfg.Checked() && TxInv(c) && c.frameCursor < |c.frames| && Aligned(c.frameCursor, c.FramesPerTx())
    requires tx == GroupAt(c.frames, c.FramesPerTx(), c.frameCursor)
    requires IsGroup(c.frames, c.FramesPerTx(), c.Sealed(), tx)
    requires c' == c.(frameCursor := c.frameCursor + |tx|, pending := c.pending[IdOf(tx) := tx],
                      history := c.history.(draws := c.history.draws + [tx]))
    ensures TxInv(c')
  {
    hide IsGroup, IsGroupId, GroupAt, Aligned, Covered, CursorAligned, Numbered, IdOf;
    var n := c.FramesPerTx();
    assert |tx| == n || c.Sealed() by { GroupSize(c.frames, n, c.Sealed(), tx); }
    CursorNext(c.frames, n, c.Sealed(), c.frameCursor);
    GroupEnd(c.frames, n, c.frameCursor);
    CoveredNext(c.frames, n, c.frameCursor, c.pending.Keys + c.confirmed.Keys, c'.frameCursor);
    assert c'.pending.Keys + c'.confirmed.Keys == c.pending.Keys + c.confirmed.Keys + {IdOf(tx)};
  }

  lemma GroupSize(frames: seq<Frame>, n: pos, sealed: bool, tx: seq<Frame>)
    requires IsGroup(frames, n, sealed, tx)
    ensures |tx| == n || sealed
  {
  }

  lemma GroupEnd(frames: seq<Frame>, n: pos, s: nat)
    requires s <= |frames|
    ensures s + |GroupAt(frames, n, s)| == Min(s + n, |frames|)
  {
  }

  lemma CursorNext(frames: seq<Frame>, n: pos, sealed: bool, cursor: nat)
    requires Aligned(cursor, n) && cursor < |frames| && (|GroupAt(frames, n, cursor)| == n || sealed)
    ensures CursorAligned(frames, n, sealed, cursor + |GroupAt(frames, n, cursor)|)
  {
    assert Aligned(cursor + n, n);
  }

  lemma CoveredNext(frames: seq<Frame>, n: pos, cursor: nat, ids: set<TxId>, cursor': nat)
    requires cursor <= cursor' <= Min(cursor + n, |frames|) && Aligned(cursor, n) && Covered(frames, n, cursor, ids)
    ensures Covered(frames, n, cursor', ids + {IdOf(GroupAt(frames, n, cursor))})
  {
    forall s: nat | Aligned(s, n) && s < cursor'
      ensures s < cursor || s == cursor
    {
      if s > cursor { AlignedApart(cursor, s, n); }
    }
  }

  lemma PendingIsGroupId(c: Channel, id: TxId)
    requires c.cfg.Checked() && TxInv(c) && id in c.pending
    ensures |id| > 0 && id[0] == FrameId(c.id, id[0].number) && id[0].number < |c.frames|
    ensures c.pending[id] == GroupAt(c.frames, c.FramesPerTx(), id[0].number) && |c.pending[id]| > 0
    ensures IsGroupId(c.frames, c.FramesPerTx(), c.Sealed(), id)
  {
    var tx := c.pending[id];
    assert IsGroup(c.frames, c.FramesPerTx(), c.Sealed(), tx);
    IdOfGroup(c.id, c.frames, c.FramesPerTx(), tx[0].id.number);
  }

  /** The rewind panic is unreachable: a failed transaction's first frame is always known. */
  lemma TxFailedNoPanic(c: Channel, id: TxId)
    requires Inv(c)
    ensures TxFailed(c, id).Some?
    ensures id in c.pending ==> |id| > 0
    ensures id in c.pending ==>
      TxFailed(c, id).value == c.(pending := c.pending - {id}, frameCursor := Min(c.frameCursor, id[0].number))
  {
    if id in c.pending {
      PendingIsGroupId(c, id);
      assert c.pending[id][0] == c.frames[id[0].number];
    }
  }

  lemma TxFailedInv(c: Channel, id: TxId)
    requires Inv(c)
    ensures TxFailed(c, id).Some? && Inv(TxFailed(c, id).value)
  {
    TxFailedNoPanic(c, id);
    if id in c.pending {
      PendingIsGroupId(c, id);
      var c' := TxFailed(c, id).value;
      CoveredRewind(c.id, c.frames, c.FramesPerTx(), c.frameCursor, c.pending.Keys + c.confirmed.Keys, id);
      assert c.pending.Keys + c.confirmed.Keys - {id} <= c'.pending.Keys + c'.confirmed.Keys;
      CoveredMore(c.frames, c.FramesPerTx(), c'.frameCursor, c.pending.Keys + c.confirmed.Keys - {id},
                  c'.pending.Keys + c'.confirmed.Keys);
      assert TimeInv(c');
    }
  }

  lemma CoveredMore(frames: seq<Frame>, n: pos, cursor: nat, ids: set<TxId>, ids': set<TxId>)
    requires cursor <= |frames| && Covered(frames, n, cursor, ids) && ids <= ids'
    ensures Covered(frames, n, cursor, ids')
  {
  }

  /** Groups below the rewound cursor start earlier than the failed one, so they are other transactions. */
  lemma CoveredRewind(ch: nat, frames: seq<Frame>, n: pos, cursor: nat, ids: set<TxId>, id: TxId)
    requires Numbered(ch, frames) && cursor <= |frames| && Covered(frames, n, cursor, ids) && |id| > 0
    ensures Covered(frames, n, Min(cursor, id[0].number), ids - {id})
  {
    forall s: nat | Aligned(s, n) && s < Min(cursor, id[0].number)
      ensures IdOf(GroupAt(frames, n, s)) in ids - {id}
    {
      IdOfGroup(ch, frames, n, s);
    }
  }

  lemma TxConfirmedInv(c: Channel, id: TxId, inclusion: nat)
    requires Inv(c) && inclusion <= MAX_UINT64
    ensures Inv(TxConfirmed(c, id, inclusion))
  {
    if id in c.pending {
      MoveToConfirmedInv(c, TxConfirmed(c, id, inclusion), id);
      TxConfirmedTimeInv(c, id, inclusion);
    }
  }

  lemma TxConfirmedTimeInv(c: Channel, id: TxId, inclusion: nat)
    requires TimeInv(c) && inclusion <= MAX_UINT64
    ensures TimeInv(TxConfirmed(c, id, inclusion))
  {
    InclusionsExtended(c.history.inclusions, c.confirmed, c.minInclusion, c.maxInclusion, id, inclusion);
    UpdateTimeoutInv(RecordInclusion(c, id, inclusion),
                     Wrap64(inclusion + c.cfg.channelTimeout - c.cfg.subSafetyMargin), ChannelTimeoutClose);
  }

  lemma MoveToConfirmedInv(c: Channel, c': Channel, id: TxId)
    requires c.cfg.Checked() && TxInv(c) && id in c.pending && c'.cfg == c.cfg && c'.Sealed() == c.Sealed()
    requires c'.id == c.id && c'.frames == c.frames && c'.frameCursor == c.frameCursor
    requires c'.pending == c.pending - {id} && c'.confirmed.Keys == c.confirmed.Keys + {id}
    requires c'.history.draws == c.history.draws
    ensures TxInv(c')
  {
    PendingIsGroupId(c, id);
    assert c'.pending.Keys + c'.confirmed.Keys == c.pending.Keys + c.confirmed.Keys;
  }

  lemma InclusionsExtended(ns: seq<nat>, confirmed: map<TxId, nat>, lo: nat, hi: nat, id: TxId, n: nat)
    requires InclusionsRecorded(ns, confirmed, lo, hi) && n <= MAX_UINT64
    ensures InclusionsRecorded(ns + [n], confirmed[id := n], Min(lo, n), Max(hi, n))
  {
    assert id in confirmed[id := n];
    assert (ns + [n])[|ns|] == n;
    forall m | m in ns ensures m in ns + [n] {}
  }

  // ----- What the invariant means -----

  /** Every frame below the cursor is in a pending or confirmed transaction. */
  lemma FrameDelivered(c: Channel, i: nat) returns (id: TxId)
    requires Inv(c) && i < c.frameCursor
    ensures id in c.pending || id in c.confirmed
    ensures c.frames[i].id in id
  {
    hide Aligned, TimeInv, Numbered, PendingAligned, ConfirmedAligned, AllGroups, IsGroup, IsGroupId;
    var s := AlignedBelow(i, c.FramesPerTx());
    var g := GroupAt(c.frames, c.FramesPerTx(), s);
    id := IdOf(g);
    assert id[i - s] == c.frames[i].id;
  }

  /** A fully submitted channel has every one of its frames in a confirmed transaction. */
  lemma FullySubmittedDelivered(c: Channel, i: nat) returns (id: TxId)
    requires Inv(c) && c.IsFullySubmitted() && i < |c.frames|
    ensures id in c.confirmed && c.frames[i].id in id
  {
    id := FrameDelivered(c, i);
    assert |c.pending| == 0;
    assert id !in c.pending;
  }

  /** Two draws that share a frame are the same transaction, whatever failed in between. */
  lemma ResubmissionStable(c: Channel, i: nat, j: nat, f: Frame)
    requires Inv(c) && i < |c.history.draws| && j < |c.history.draws|
    requires f in c.history.draws[i] && f in c.history.draws[j]
    ensures c.history.draws[i] == c.history.draws[j]
  {
    var d, e := c.history.draws[i], c.history.draws[j];
    var n := c.FramesPerTx();
    var s, t := d[0].id.number, e[0].id.number;
    MemberOfGroup(c.id, c.frames, n, s, f);
    MemberOfGroup(c.id, c.frames, n, t, f);
    if s < t { AlignedApart(s, t, n); }
    if t < s { AlignedApart(t, s, n); }
  }

  /** Every draw is the group [k*n, min((k+1)*n, total)) of the channel's frames. */
  lemma DrawnIsAlignedGroup(c: Channel, i: nat) returns (k: nat)
    requires Inv(c) && i < |c.history.draws|
    ensures 0 <= k * c.FramesPerTx() < |c.frames|
    ensures c.history.draws[i] == GroupAt(c.frames, c.FramesPerTx(), k * c.FramesPerTx())
  {
    var d, n := c.history.draws[i], c.FramesPerTx();
    assert IsGroup(c.frames, n, c.Sealed(), d);
    k := AlignedIsMultiple(d[0].id.number, n);
  }

  lemma MemberOfGroup(ch: nat, frames: seq<Frame>, n: pos, s: nat, f: Frame)
    requires Numbered(ch, frames) && s < |frames| && f in GroupAt(frames, n, s)
    ensures s <= f.id.number < s + n
  {
    var g := GroupAt(frames, n, s);
    var k :| 0 <= k < |g| && g[k] == f;
    assert f == frames[s + k];
  }

  /** CheckTimeout fills an open channel exactly when some registered deadline has been reached. */
  lemma TimeoutMeansDeadlineReached(c: Channel, l1Number: nat)
    requires Inv(c) && !c.IsFull() && AllSet(c.history.deadlines)
    ensures CheckTimeout(c, l1Number).IsFull() <==>
      exists d :: d in c.history.deadlines && d.at <= l1Number
    ensures CheckTimeout(c, l1Number).IsFull() ==>
      exists d :: d in c.history.deadlines && d.at <= l1Number && CheckTimeout(c, l1Number).full == Some(d.reason)
  {
    var ds := c.history.deadlines;
    if CheckTimeout(c, l1Number).IsFull() {
      var d := Deadline(c.timeout, c.timeoutReason);
      assert d in ds && d.at <= l1Number;
    }
    if d :| d in ds && d.at <= l1Number {
      assert c.timeout <= d.at;
      assert Deadline(c.timeout, c.timeoutReason) in ds;
    }
  }

  /** A channel has timed out on chain iff two recorded inclusions are ChannelTimeout apart. */
  lemma TimedOutMeansSpread(c: Channel)
    requires TimeInv(c)
    ensures c.IsTimedOut() <==>
      exists a, b :: a in c.history.inclusions && b in c.history.inclusions && a - b >= c.cfg.channelTimeout
  {
    SpreadOf(c.history.inclusions, c.confirmed, c.minInclusion, c.maxInclusion, c.cfg.channelTimeout);
    assert |c.confirmed| == 0 <==> c.confirmed == map[];
  }

  lemma SpreadOf(ns: seq<nat>, confirmed: map<TxId, nat>, lo: nat, hi: nat, gap: nat)
    requires InclusionsRecorded(ns, confirmed, lo, hi)
    ensures ns != [] ==> Wrap64(hi - lo) == hi - lo
    ensures ns != [] && hi - lo >= gap <==> exists a, b :: a in ns && b in ns && a - b >= gap
  {
    if ns != [] {
      assert hi in ns && lo in ns && lo <= ns[0] <= hi;
      if a, b :| a in ns && b in ns && a - b >= gap {
        assert a <= hi && lo <= b;
      }
    }
  }

  // ----- What each operation computes -----

  lemma EmptyMap<K, V>(m: map<K, V>)
    ensures |m| == 0 <==> m == map[]
  {
  }

  /** How many frames a transaction of the channel carries. */
  lemma SizeOf(c: Channel)
    ensures c.FramesPerTx() == if c.cfg.useBlobs then c.cfg.targetNumFrames else 1
  {
  }

  /** A transaction is ready iff a whole one can be drawn, or a last one from a full channel; it is drawn from the
      cursor on and recorded as pending under the ids of its frames. */
  lemma ReadyExactly(c: Channel)
    requires Inv(c)
    ensures var n, left := if c.cfg.useBlobs then c.cfg.targetNumFrames else 1, |c.frames| - c.frameCursor;
      && (c.HasTxData() <==> left >= n || (left > 0 && c.full.Some?))
      && (c.HasTxData() ==>
            var (c', tx) := NextTxData(c);
            && tx == c.frames[c.frameCursor..c.frameCursor + Min(n, left)]
            && c'.frameCursor == c.frameCursor + |tx| && c'.history.draws == c.history.draws + [tx]
            && (exists id :: |id| == |tx| && (forall i :: 0 <= i < |tx| ==> id[i] == tx[i].id)
                             && c'.pending == c.pending[id := tx]))
  {
    hide IdOf, TimeInv, Carries, Newest, Numbered, PendingAligned, ConfirmedAligned, AllGroups, Covered;
    SizeOf(c);
    if c.HasTxData() { DrawnPending(c); }
  }

  lemma DrawnPending(c: Channel)
    requires c.HasTxData()
    ensures var (c', tx) := NextTxData(c);
      && |IdOf(tx)| == |tx| && (forall i :: 0 <= i < |tx| ==> IdOf(tx)[i] == tx[i].id)
      && c'.pending == c.pending[IdOf(tx) := tx]
  {
  }

  /** Nothing was submitted iff nothing is pending or confirmed; everything was iff the channel is full, nothing is
      pending and nothing is left to draw. */
  lemma SubmittedExactly(c: Channel)
    requires Inv(c)
    ensures c.NoneSubmitted() <==> c.pending == map[] && c.confirmed == map[]
    ensures c.IsFullySubmitted() <==> c.full.Some? && c.pending == map[] && c.frameCursor == |c.frames|
  {
    hide TimeInv, Carries, Newest, Numbered, PendingAligned, ConfirmedAligned, AllGroups, Covered;
    EmptyMap(c.pending);
    EmptyMap(c.confirmed);
  }

  /** A new channel takes blocks, and has to be closed by its maximum duration after the given L1 block. */
  lemma NewExactly(id: nat, cfg: Config, latestL1: nat)
    ensures var c := NewChannel(id, cfg, latestL1);
      && c.id == id && c.cfg == cfg && c.full.None? && !c.closed && c.blocks == [] && c.frames == []
      && c.pending == map[] && c.confirmed == map[]
      && (cfg.maxChannelDuration > 0 && latestL1 + cfg.maxChannelDuration <= MAX_UINT64 ==>
            c.timeout == latestL1 + cfg.maxChannelDuration && c.timeoutReason == MaxDurationReached)
      && (cfg.maxChannelDuration == 0 ==> c.timeout == 0)
  {
  }

  /** A block is added iff the channel is open and its channel out accepts it. A channel that is full, or whose channel
      out refuses the block, answers that it is full and stays so; every other outcome is an error. */
  lemma AddBlockExactly(c: Channel, b: Block, reply: AddReply)
    ensures var (c', r) := AddBlock(c, b, reply);
      && (r == BlockAdded <==> c.full.None? && !c.closed && reply.Accepted?)
      && (r == ChannelFull <==> c.full.Some? || (!c.closed && reply.Refused?))
      && (r == ChannelFull ==> c' == c.(full := if c.full.Some? then c.full else Some(reply.reason)))
      && (r == AddFailed ==> c' == c)
      && (r == BlockAdded ==> c'.blocks == c.blocks + [b] && c'.full == reply.full)
  {
  }

  /** Closing fills an open channel and changes nothing else. */
  lemma CloseExactly(c: Channel)
    ensures Close(c) == c.(full := if c.full.Some? then c.full else Some(Terminated))
  {
  }

  /** A call appends one frame per chunk that the channel out produced, numbered in order, unless the channel out is
      closed already or cannot be closed. It closes the channel out of a full channel, succeeds iff neither that nor
      the channel out fails, and the frame with the last possible number fills the channel. */
  lemma OutputFramesExactly(c: Channel, feed: FrameFeed)
    ensures var (c', ok) := OutputFrames(c, feed);
      var stops := c.full.Some? && (c.closed || !feed.closes);
      var from := |c.frames|;
      && (ok <==> !stops && feed.ok)
      && (stops ==> c' == c.(closed := true))
      && (!stops ==> c'.frames == c.frames + seq(|feed.chunks|, i requires 0 <= i < |feed.chunks| =>
                                                  Frame(FrameId(c.id, (from + i) % 0x1_0000), feed.chunks[i])))
      && (!stops ==> c'.history.output == c.history.output + feed.chunks)
      && (!stops ==> c'.full == if exists i :: from <= i < |c'.frames| && c'.frames[i].id.number == 0xFFFF
                                then Some(MaxFrameIndex) else c.full)
      && c' == c.(frames := c'.frames, full := c'.full, closed := c.closed || c.full.Some?,
                  history := c.history.(output := c'.history.output))
  {
    OutputAllExactly(c, feed.chunks);
    OutputAllExactly(c.(closed := true), feed.chunks);
    HitsFrom(c.frames, Framed(c.id, |c.frames|, feed.chunks));
  }

  /** `c'` is `c` after its channel out was asked for frames; `ok` says whether that succeeded. */
  ghost predicate Outputs(c: Channel, feed: FrameFeed, c': Channel, ok: bool) {
    var stops, from := c.full.Some? && (c.closed || !feed.closes), |c.frames|;
    && (ok <==> !stops && feed.ok)
    && |c'.frames| == from + (if stops then 0 else |feed.chunks|) && c.frames <= c'.frames
    && (forall i :: from <= i < |c'.frames| ==> c'.frames[i] == Frame(FrameId(c.id, i), feed.chunks[i - from]))
    && c' == c.(frames := c'.frames, closed := c.closed || c.full.Some?, history := c'.history)
  }

  /** Below the limit on frame numbers, the channel stays as full as it was. */
  lemma OutputFramesWithin(c: Channel, feed: FrameFeed)
    requires Numbered(c.id, c.frames) && |c.frames| + |feed.chunks| <= MAX_FRAMES
    ensures Outputs(c, feed, OutputFrames(c, feed).0, OutputFrames(c, feed).1)
  {
    hide HitsLimit, Framed, Numbered, OutputAll;
    OutputAllExactly(c, feed.chunks);
    OutputAllExactly(c.(closed := true), feed.chunks);
    FramedNumbers(c.id, |c.frames|, feed.chunks);
  }

  lemma FramedNumbers(ch: nat, from: nat, chunks: seq<Bytes>)
    requires from + |chunks| <= MAX_FRAMES
    ensures var added := Framed(ch, from, chunks);
      && |added| == |chunks| && !HitsLimit(added)
      && forall i :: 0 <= i < |chunks| ==> added[i] == Frame(FrameId(ch, from + i), chunks[i])
  {
  }

  /** A confirmation moves the transaction from pending to confirmed at its inclusion block; one that is not pending
      changes nothing. */
  lemma TxConfirmedExactly(c: Channel, id: TxId, inclusion: nat)
    ensures var c' := TxConfirmed(c, id, inclusion);
      if id in c.pending then
        && c'.pending == c.pending - {id} && c'.confirmed == c.confirmed[id := inclusion]
        && c'.history.inclusions == c.history.inclusions + [inclusion] && c'.history.output == c.history.output
        && c'.frames == c.frames && c'.frameCursor == c.frameCursor && c'.blocks == c.blocks
        && c'.full == c.full && c'.closed == c.closed
      else c' == c
  {
  }

  /** Every frame drawn carries what the channel out produced for its number. */
  lemma DrawnBytes(c: Channel, i: nat, f: Frame)
    requires Inv(c) && i < |c.history.draws| && f in c.history.draws[i]
    ensures f.id.ch == c.id && f.id.number < |c.history.output| && f.data == c.history.output[f.id.number]
  {
    var d := c.history.draws[i];
    assert IsGroup(c.frames, c.FramesPerTx(), c.Sealed(), d);
    var k :| 0 <= k < |d| && d[k] == f;
    assert f == c.frames[d[0].id.number + k];
  }

  /** So does every frame of a pending transaction, and a confirmed transaction is the id of such frames. */
  lemma SubmittedBytes(c: Channel, id: TxId, k: nat)
    requires Inv(c) && (id in c.pending || id in c.confirmed) && k < |id|
    ensures id[k].ch == c.id && id[k].number < |c.history.output|
    ensures c.frames[id[k].number] == Frame(id[k], c.history.output[id[k].number])
    ensures id in c.pending ==> |c.pending[id]| == |id| && c.pending[id][k] == c.frames[id[k].number]
  {
    hide TimeInv, Newest, AllGroups, Covered, CursorAligned;
    if id in c.pending { PendingIsGroupId(c, id); }
    assert IsGroupId(c.frames, c.FramesPerTx(), c.Sealed(), id);
    var g := GroupAt(c.frames, c.FramesPerTx(), id[0].number);
    assert id[k] == g[k].id && g[k] == c.frames[id[0].number + k];
  }
}
