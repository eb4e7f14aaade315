/** The mutable channel object (op-batcher/batcher/channel.go with its embedded channel_builder.go);
    every method is proved to compute the corresponding function of module Channels. */
module LiveChannels {
  import opened Prelude
  import C = Channels

  class LiveChannel {
    const id: nat
    const cfg: C.Config
    var timeout: nat
    var timeoutReason: C.Reason
    var full: Option<C.Reason>
    var closed: bool
    var blocks: seq<C.Block>
    var latestL1: nat
    var latestL2: nat
    var frames: seq<C.Frame>
    var frameCursor: nat
    var pending: map<C.TxId, seq<C.Frame>>
    var confirmed: map<C.TxId, nat>
    var minInclusion: nat
    var maxInclusion: nat
    ghost var history: C.History

    ghost function View(): C.Channel
      reads this
    {
      C.Channel(id, cfg, timeout, timeoutReason, full, closed, blocks, latestL1, latestL2, frames, frameCursor,
                pending, confirmed, minInclusion, maxInclusion, history)
    }

    constructor (id: nat, cfg: C.Config, latestL1Origin: nat)
      ensures this.id == id && View() == C.NewChannel(id, cfg, latestL1Origin)
    {
      this.id, this.cfg := id, cfg;
      timeout, timeoutReason, full, closed := 0, C.Terminated, None, false;
      blocks, latestL1, latestL2 := [], 0, 0;
      frames, frameCursor := [], 0;
      pending, confirmed := map[], map[];
      minInclusion, maxInclusion := MAX_UINT64, 0;
      history := C.History([], [], [], []);
      new;
      if cfg.maxChannelDuration != 0 {
        UpdateTimeout(Wrap64(latestL1Origin + cfg.maxChannelDuration), C.MaxDurationReached);
      }
    }

    predicate IsFull()
      reads this
    {
      full.Some?
    }

    predicate HasPendingFrame()
      reads this
    {
      frameCursor < |frames|
    }

    predicate HasTxData()
      reads this
      ensures HasTxData() == View().HasTxData()
    {
      if IsFull() || !cfg.useBlobs then HasPendingFrame() else |frames| - frameCursor >= cfg.MaxFramesPerTx()
    }

    predicate NoneSubmitted()
      reads this
      ensures NoneSubmitted() == View().NoneSubmitted()
    {
      |confirmed| == 0 && |pending| == 0
    }

    predicate IsFullySubmitted()
      reads this
      ensures IsFullySubmitted() == View().IsFullySubmitted()
    {
      IsFull() && |pending| + (|frames| - frameCursor) == 0
    }

    predicate IsTimedOut()
      reads this
      ensures IsTimedOut() == View().IsTimedOut()
    {
      |confirmed| > 0 && Wrap64(maxInclusion - minInclusion) >= cfg.channelTimeout
    }

    method UpdateTimeout(at: nat, reason: C.Reason)
      modifies this
      ensures View() == C.UpdateTimeout(old(View()), at, reason)
    {
      if timeout == 0 || timeout > at {
        timeout := at;
        timeoutReason := reason;
      }
      history := history.(deadlines := history.deadlines + [C.Deadline(at, reason)]);
    }

    method AddBlock(b: C.Block, reply: C.AddReply) returns (result: C.AddResult)
      modifies this
      ensures (View(), result) == C.AddBlock(old(View()), b, reply)
    {
      if IsFull() { return C.ChannelFull; }
      if closed { return C.AddFailed; }
      match reply
      case Refused(reason) =>
        full := Some(reason);
        return C.ChannelFull;
      case Broken => return C.AddFailed;
      case Accepted(fullErr) =>
        blocks := blocks + [b];
        UpdateTimeout(Wrap64(b.l1Origin + cfg.seqWindowSize - cfg.subSafetyMargin), C.SeqWindowClose);
        if b.l1Origin > latestL1 { latestL1 := b.l1Origin; }
        if b.number > latestL2 { latestL2 := b.number; }
        if fullErr.Some? { full := fullErr; }
        return C.BlockAdded;
    }

    method CheckTimeout(l1Number: nat)
      modifies this
      ensures View() == C.CheckTimeout(old(View()), l1Number)
    {
      if timeout != 0 && !IsFull() && l1Number >= timeout {
        full := Some(timeoutReason);
      }
    }

    method Close()
      modifies this
      ensures View() == C.Close(old(View()))
    {
      if !IsFull() { full := Some(C.Terminated); }
    }

    method OutputFrame(data: Bytes)
      modifies this
      ensures View() == C.OutputFrame(old(View()), data)
    {
      var number := |frames| % 0x1_0000;
      if number == 0xFFFF { full := Some(C.MaxFrameIndex); }
      frames := frames + [C.Frame(C.FrameId(id, number), data)];
      history := history.(output := history.output + [data]);
    }

    method OutputAll(chunks: seq<Bytes>)
      modifies this
      ensures View() == C.OutputAll(old(View()), chunks)
    {
      var i := 0;
      while i < |chunks|
        invariant 0 <= i <= |chunks|
        invariant View() == C.OutputAll(old(View()), chunks[..i])
      {
        OutputFrame(chunks[i]);
        i := i + 1;
        assert chunks[..i][..i - 1] == chunks[..i - 1];
      }
      assert chunks[..i] == chunks;
    }

    method OutputFrames(feed: C.FrameFeed) returns (ok: bool)
      modifies this
      ensures (View(), ok) == C.OutputFrames(old(View()), feed)
    {
      if IsFull() {
        if closed { return false; }
        closed := true;
        if !feed.closes { return false; }
      }
      OutputAll(feed.chunks);
      return feed.ok;
    }

    method NextTxData() returns (tx: seq<C.Frame>)
      modifies this
      ensures (View(), tx) == C.NextTxData(old(View()))
    {
      var limit := cfg.MaxFramesPerTx();
      tx := [];
      while |tx| < limit && HasPendingFrame()
        invariant frameCursor == old(frameCursor) + |tx| && (tx == [] || (frameCursor <= |frames| && |tx| <= limit))
        invariant tx != [] ==> tx == frames[old(frameCursor)..frameCursor]
        invariant View() == old(View()).(frameCursor := frameCursor)
      {
        tx := tx + [frames[frameCursor]];
        frameCursor := frameCursor + 1;
      }
      assert tx == if old(HasPendingFrame()) && 1 <= limit then C.GroupAt(frames, limit, old(frameCursor)) else [];
      pending := pending[C.IdOf(tx) := tx];
      history := history.(draws := history.draws + [tx]);
    }

    method RewindFrameCursor(f: C.Frame) returns (panicked: bool)
      modifies this
      ensures C.RewindFrameCursor(old(View()), f) == if panicked then None else Some(View())
    {
      if |frames| <= f.id.number || |frames[f.id.number].data| != |f.data| || frames[f.id.number].id.ch != f.id.ch {
        return true;
      }
      if frameCursor > f.id.number { frameCursor := f.id.number; }
      return false;
    }

    method TxFailed(tx: C.TxId) returns (panicked: bool)
      modifies this
      ensures C.TxFailed(old(View()), tx) == if panicked then None else Some(View())
    {
      if tx !in pending { return false; }
      if |pending[tx]| == 0 { return true; }
      panicked := RewindFrameCursor(pending[tx][0]);
      if !panicked { pending := pending - {tx}; }
    }

    method RecordInclusion(tx: C.TxId, inclusion: nat)
      modifies this
      ensures View() == C.RecordInclusion(old(View()), tx, inclusion)
    {
      pending := pending - {tx};
      confirmed := confirmed[tx := inclusion];
      minInclusion := Min(minInclusion, inclusion);
      maxInclusion := Max(maxInclusion, inclusion);
      history := history.(inclusions := history.inclusions + [inclusion]);
    }

    method TxConfirmed(tx: C.TxId, inclusion: nat) returns (timedOut: bool)
      modifies this
      ensures View() == C.TxConfirmed(old(View()), tx, inclusion)
      ensures timedOut == (tx in old(pending) && View().IsTimedOut())
    {
      if tx !in pending { return false; }
      RecordInclusion(tx, inclusion);
      UpdateTimeout(Wrap64(inclusion + cfg.channelTimeout - cfg.subSafetyMargin), C.ChannelTimeoutClose);
      timedOut := IsTimedOut();
    }
  }
}
