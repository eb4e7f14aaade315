/** Whole lives of one channel: what it owes the L1 chain, and that it is closed in time. */
module ChannelRuns {
  import opened Prelude
  import opened Channels

  datatype Op =
    | Add(block: Block, reply: AddReply)
    | Check(l1Number: nat)
    | Shut
    | Output(feed: FrameFeed)
    | Draw
    | Fail(id: TxId)
    | Confirm(id: TxId, inclusion: nat)

  function SequencingDue(cfg: Config, b: Block): int {
    b.l1Origin + cfg.seqWindowSize - cfg.subSafetyMargin
  }

  function InclusionDue(cfg: Config, inclusion: nat): int {
    inclusion + cfg.channelTimeout - cfg.subSafetyMargin
  }

  /** The L1 blocks by which a channel opened at L1 block `start` has to be closed: its maximum duration, the
      sequencing window of each of its blocks, and the channel timeout counted from each inclusion. */
  ghost predicate IsDue(c: Channel, start: nat, at: int) {
    || (c.cfg.maxChannelDuration > 0 && at == start + c.cfg.maxChannelDuration)
    || (exists b :: b in c.blocks && at == SequencingDue(c.cfg, b))
    || (exists n :: n in c.history.inclusions && at == InclusionDue(c.cfg, n))
  }

  /** A due date is a positive uint64. */
  predicate Proper(at: int) {
    0 < at <= MAX_UINT64
  }

  /** The timeout is the earliest due date, and unset iff there is none. */
  ghost predicate Timely(c: Channel, start: nat) {
    && (forall at :: IsDue(c, start, at) ==> 0 < c.timeout <= at)
    && (c.timeout != 0 ==> IsDue(c, start, c.timeout))
  }

  /** None is the rewind panic. */
  function Step(c: Channel, op: Op): Option<Channel> {
    match op
    case Add(b, reply) => Some(AddBlock(c, b, reply).0)
    case Check(l1Number) => Some(CheckTimeout(c, l1Number))
    case Shut => Some(Close(c))
    case Output(feed) => Some(OutputFrames(c, feed).0)
    case Draw => Some(NextTxData(c).0)
    case Fail(id) => TxFailed(c, id)
    case Confirm(id, inclusion) => Some(TxConfirmed(c, id, inclusion))
  }

  /** Frame numbers stay below the uint16 limit, and a transaction is drawn only when one is ready and a full
      channel's output is closed. */
  ghost predicate Legal(c: Channel, op: Op) {
    match op
    case Output(feed) => |c.frames| + |feed.chunks| <= MAX_FRAMES
    case Draw => c.HasTxData() && (c.IsFull() ==> c.closed)
    case Confirm(id, inclusion) => inclusion <= MAX_UINT64
    case _ => true
  }

  /** The due dates an operation brings are proper. */
  ghost predicate Dated(c: Channel, op: Op) {
    match op
    case Add(b, reply) => Proper(SequencingDue(c.cfg, b))
    case Confirm(id, inclusion) => Proper(InclusionDue(c.cfg, inclusion))
    case _ => true
  }

  lemma NewTimely(id: nat, cfg: Config, start: nat)
    requires cfg.maxChannelDuration > 0 ==> Proper(start + cfg.maxChannelDuration)
    ensures Timely(NewChannel(id, cfg, start), start)
  {
    var c := NewChannel(id, cfg, start);
    if cfg.maxChannelDuration > 0 { assert IsDue(c, start, start + cfg.maxChannelDuration); }
  }

  /** One more due date, registered with UpdateTimeout. */
  lemma DueAdded(c: Channel, c': Channel, start: nat, at: int)
    requires Timely(c, start) && Proper(at)
    requires c'.timeout == if c.timeout == 0 || c.timeout > at then at else c.timeout
    requires forall x :: IsDue(c', start, x) <==> IsDue(c, start, x) || x == at
    ensures Timely(c', start)
  {
    assert IsDue(c', start, at);
  }

  lemma SameDue(c: Channel, c': Channel, start: nat)
    requires Timely(c, start) && c'.timeout == c.timeout && c'.cfg == c.cfg && c'.blocks == c.blocks
    requires c'.history.inclusions == c.history.inclusions
    ensures Timely(c', start)
  {
    assert forall at :: IsDue(c', start, at) <==> IsDue(c, start, at);
  }

  lemma EnqueueTimely(c: Channel, start: nat, b: Block, full: Option<Reason>)
    requires Timely(c, start) && Proper(SequencingDue(c.cfg, b))
    ensures Timely(EnqueueBlock(c, b, full), start)
  {
    var c' := EnqueueBlock(c, b, full);
    var due := SequencingDue(c.cfg, b);
    forall x ensures IsDue(c', start, x) <==> IsDue(c, start, x) || x == due {
      assert b in c'.blocks && forall y :: y in c'.blocks <==> y in c.blocks || y == b;
    }
    DueAdded(c, c', start, due);
  }

  lemma ConfirmTimely(c: Channel, start: nat, id: TxId, inclusion: nat)
    requires Timely(c, start) && Proper(InclusionDue(c.cfg, inclusion)) && id in c.pending
    ensures Timely(TxConfirmed(c, id, inclusion), start)
  {
    var c' := TxConfirmed(c, id, inclusion);
    var due := InclusionDue(c.cfg, inclusion);
    forall x ensures IsDue(c', start, x) <==> IsDue(c, start, x) || x == due {
      assert inclusion in c'.history.inclusions
        && forall n :: n in c'.history.inclusions <==> n in c.history.inclusions || n == inclusion;
    }
    DueAdded(c, c', start, due);
  }

  lemma StepTimely(c: Channel, start: nat, op: Op)
    requires Inv(c) && Timely(c, start) && Dated(c, op) && Step(c, op).Some?
    ensures Timely(Step(c, op).value, start)
  {
    hide Inv, Timely, EnqueueBlock, TxConfirmed;
    var c' := Step(c, op).value;
    match op
    case Add(b, reply) =>
      if !c.IsFull() && !c.closed && reply.Accepted? {
        EnqueueTimely(c, start, b, reply.full);
      } else {
        SameDue(c, c', start);
      }
    case Output(feed) =>
      OutputAllRest(c, feed.chunks);
      OutputAllRest(c.(closed := true), feed.chunks);
      SameDue(c, c', start);
    case Confirm(id, inclusion) =>
      if id in c.pending { ConfirmTimely(c, start, id, inclusion); } else { UnknownConfirm(c, id, inclusion); }
    case _ => SameDue(c, c', start);
  }

  lemma UnknownConfirm(c: Channel, id: TxId, inclusion: nat)
    requires id !in c.pending
    ensures TxConfirmed(c, id, inclusion) == c
  {
  }

  lemma StepInv(c: Channel, op: Op)
    requires Inv(c) && Legal(c, op)
    ensures Step(c, op).Some? && Inv(Step(c, op).value)
  {
    hide Inv;
    match op
    case Add(b, reply) => AddBlockInv(c, b, reply);
    case Check(l1Number) => CheckTimeoutInv(c, l1Number);
    case Shut => CloseInv(c);
    case Output(feed) => OutputFramesInv(c, feed);
    case Draw => NextTxDataInv(c);
    case Fail(id) => TxFailedInv(c, id);
    case Confirm(id, inclusion) => TxConfirmedInv(c, id, inclusion);
  }

  ghost predicate LegalRun(c: Channel, ops: seq<Op>)
    decreases |ops|
  {
    ops == [] || (Legal(c, ops[0]) && (Step(c, ops[0]).Some? ==> LegalRun(Step(c, ops[0]).value, ops[1..])))
  }

  ghost predicate DatedRun(c: Channel, ops: seq<Op>)
    decreases |ops|
  {
    ops == [] || (Dated(c, ops[0]) && (Step(c, ops[0]).Some? ==> DatedRun(Step(c, ops[0]).value, ops[1..])))
  }

  function Run(c: Channel, ops: seq<Op>): Option<Channel>
    decreases |ops|
  {
    if ops == [] then Some(c) else match Step(c, ops[0]) case None => None case Some(c1) => Run(c1, ops[1..])
  }

  lemma {:induction false} RunInv(c: Channel, start: nat, ops: seq<Op>)
    requires Inv(c) && Timely(c, start) && LegalRun(c, ops) && DatedRun(c, ops)
    ensures Run(c, ops).Some? && Inv(Run(c, ops).value) && Timely(Run(c, ops).value, start)
    decreases |ops|
  {
    hide Inv, Timely, Step, Legal, Dated;
    if ops != [] {
      StepInv(c, ops[0]);
      StepTimely(c, start, ops[0]);
      RunInv(Step(c, ops[0]).value, start, ops[1..]);
    }
  }

  /** In every life of a channel: looking at L1 block `l1Number` closes an open channel iff one of its due dates
      has been reached. So a channel left open has missed none of them. */
  lemma ClosedWhenDue(id: nat, cfg: Config, start: nat, ops: seq<Op>, l1Number: nat)
    requires cfg.Checked() && (cfg.maxChannelDuration > 0 ==> Proper(start + cfg.maxChannelDuration))
    requires LegalRun(NewChannel(id, cfg, start), ops) && DatedRun(NewChannel(id, cfg, start), ops)
    ensures Run(NewChannel(id, cfg, start), ops).Some?
    ensures var c := Run(NewChannel(id, cfg, start), ops).value;
      !c.IsFull() ==> (CheckTimeout(c, l1Number).IsFull() <==> exists at :: IsDue(c, start, at) && at <= l1Number)
  {
    hide Inv, LegalRun, DatedRun, Run, IsDue;
    NewChannelInv(id, cfg, start);
    NewTimely(id, cfg, start);
    RunInv(NewChannel(id, cfg, start), start, ops);
  }

  // ----- What the frames carry -----

  /** What the channel out produces for one operation: nothing if it is closed already or cannot be closed. */
  function Produced(c: Channel, op: Op): seq<Bytes> {
    if op.Output? && !(c.full.Some? && (c.closed || !op.feed.closes)) then op.feed.chunks else []
  }

  /** All that the channel out produces in a run. */
  function AllProduced(c: Channel, ops: seq<Op>): seq<Bytes>
    decreases |ops|
  {
    if ops == [] then []
    else Produced(c, ops[0]) + match Step(c, ops[0]) case None => [] case Some(c1) => AllProduced(c1, ops[1..])
  }

  lemma StepOutput(c: Channel, op: Op)
    requires Step(c, op).Some?
    ensures var c' := Step(c, op).value;
      c'.id == c.id && c'.history.output == c.history.output + Produced(c, op)
  {
    hide OutputFrames, IdOf;
    assert c.history.output + [] == c.history.output;
    match op
    case Output(feed) => OutputFramesExactly(c, feed);
    case _ =>
  }

  lemma {:induction false} RunOutput(c: Channel, ops: seq<Op>)
    requires Inv(c) && LegalRun(c, ops)
    ensures Run(c, ops).Some? && Inv(Run(c, ops).value) && Run(c, ops).value.id == c.id
    ensures Run(c, ops).value.history.output == c.history.output + AllProduced(c, ops)
    decreases |ops|
  {
    hide Inv, Step, Legal, Produced;
    if ops == [] {
      assert c.history.output + [] == c.history.output;
    } else {
      StepInv(c, ops[0]);
      StepOutput(c, ops[0]);
      var c1 := Step(c, ops[0]).value;
      RunOutput(c1, ops[1..]);
      var a, x, y := c.history.output, Produced(c, ops[0]), AllProduced(c1, ops[1..]);
      assert (a + x) + y == a + (x + y);
    }
  }

  /** In every life of a channel its frames are, in order, exactly what its channel out produced; and whatever failed
      and was drawn again, every frame that was drawn, and so every frame confirmed, carries the bytes produced for its
      number. */
  lemma FramesCarryOutput(id: nat, cfg: Config, start: nat, ops: seq<Op>)
    requires cfg.Checked() && LegalRun(NewChannel(id, cfg, start), ops)
    ensures Run(NewChannel(id, cfg, start), ops).Some?
    ensures var out, c := AllProduced(NewChannel(id, cfg, start), ops), Run(NewChannel(id, cfg, start), ops).value;
      && c.frames == seq(|out|, i requires 0 <= i < |out| => Frame(FrameId(id, i), out[i]))
      && (forall i, f :: 0 <= i < |c.history.draws| && f in c.history.draws[i] ==>
            f.id.ch == id && f.id.number < |out| && f.data == out[f.id.number])
      && (forall tx: TxId, k :: tx in c.confirmed && 0 <= k < |tx| ==>
            tx[k].ch == id && tx[k].number < |out| && c.frames[tx[k].number] == Frame(tx[k], out[tx[k].number]))
  {
    hide LegalRun, Run, AllProduced, TimeInv, Newest, IsGroup, IsGroupId, CursorAligned, PendingAligned, Covered;
    NewChannelInv(id, cfg, start);
    RunOutput(NewChannel(id, cfg, start), ops);
    var out, c := AllProduced(NewChannel(id, cfg, start), ops), Run(NewChannel(id, cfg, start), ops).value;
    assert [] + out == out;
    forall i, f | 0 <= i < |c.history.draws| && f in c.history.draws[i]
      ensures f.id.ch == id && f.id.number < |out| && f.data == out[f.id.number]
    {
      DrawnBytes(c, i, f);
    }
    forall tx: TxId, k | tx in c.confirmed && 0 <= k < |tx|
      ensures tx[k].ch == id && tx[k].number < |out| && c.frames[tx[k].number] == Frame(tx[k], out[tx[k].number])
    {
      SubmittedBytes(c, tx, k);
    }
  }
}
