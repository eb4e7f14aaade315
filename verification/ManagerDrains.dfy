/** End-to-end progress of the channel manager: repeated publishing packs every block and draws every frame that is
    ready. */
module ManagerDrains {
  import opened Prelude
  import opened Manager
  import opened ManagerInv
  import opened ManagerBuild
  import opened ManagerProgress
  import R = ManagerRuns
  import C = Channels

  /** Frames drawn so far from the queued channels. */
  function Drawn(channels: map<nat, C.Channel>, queue: seq<nat>): nat {
    if queue == [] then 0
    else (if queue[0] in channels then channels[queue[0]].frameCursor else 0) + Drawn(channels, queue[1..])
  }

  function Unpacked(m: Mgr): int {
    |m.blocks| - m.blockCursor
  }

  function Open(m: Mgr): nat
    requires Linked(m)
  {
    if m.current.Some? && !Current(m).IsFull() then 1 else 0
  }

  /** What is left to do, less what has been drawn; every call that does anything reduces it. */
  function Left(m: Mgr): int
    requires Linked(m)
  {
    2 * Unpacked(m) + Open(m) - Drawn(m.channels, m.queue)
  }

  lemma {:induction false} DrawnSame(channels: map<nat, C.Channel>, channels': map<nat, C.Channel>, queue: seq<nat>)
    requires forall i :: 0 <= i < |queue| ==> queue[i] in channels && queue[i] in channels'
    requires forall i :: 0 <= i < |queue| ==> channels'[queue[i]].frameCursor == channels[queue[i]].frameCursor
    ensures Drawn(channels', queue) == Drawn(channels, queue)
  {
    if queue != [] { DrawnSame(channels, channels', queue[1..]); }
  }

  lemma {:induction false} DrawnUpdate(channels: map<nat, C.Channel>, queue: seq<nat>, k: nat, c: C.Channel)
    requires k in queue && forall i :: 0 <= i < |queue| ==> queue[i] in channels
    requires forall i, j :: 0 <= i < j < |queue| ==> queue[i] != queue[j]
    ensures k in channels
    ensures Drawn(channels[k := c], queue) == Drawn(channels, queue) + c.frameCursor - channels[k].frameCursor
  {
    if queue[0] == k {
      DrawnSame(channels, channels[k := c], queue[1..]);
    } else {
      DrawnUpdate(channels, queue[1..], k, c);
    }
  }

  lemma {:induction false} DrawnAppend(channels: map<nat, C.Channel>, queue: seq<nat>, id: nat, c: C.Channel)
    requires forall i :: 0 <= i < |queue| ==> queue[i] in channels
    requires id !in channels && c.frameCursor == 0
    ensures Drawn(channels[id := c], queue + [id]) == Drawn(channels, queue)
  {
    if queue == [] {
      assert (queue + [id])[1..] == [];
    } else {
      assert (queue + [id])[1..] == queue[1..] + [id];
      DrawnAppend(channels, queue[1..], id, c);
    }
  }

  // ----- One call -----

  /** Changing the current channel without drawing from it: it can only be filled. */
  lemma TouchLeft(m: Mgr, c: C.Channel, cursor: nat)
    requires Linked(m) && QueueInv(m.queue, m.current) && m.current == Some(c.id)
    requires c.frameCursor == Current(m).frameCursor && m.blockCursor <= cursor
    ensures var m' := SetChannel(m, c).(blockCursor := cursor);
      Left(m') == 2 * (|m.blocks| - cursor) + (if c.IsFull() then 0 else 1) - Drawn(m.channels, m.queue)
  {
    hide C.Channel.IsFull;
    DrawnUpdate(m.channels, m.queue, c.id, c);
  }

  lemma DrawLeft(m: Mgr, k: nat)
    requires Linked(m) && Inv(m) && k in m.queue && m.channels[k].HasTxData()
    ensures Left(NextTxData(m, k).0) < Left(m)
  {
    hide C.Inv, BlocksInv, TxsInv, LatestInv, Held, Chain, Drawn, C.IdOf;
    var c := m.channels[k];
    C.NextTxDataGroup(c);
    var (c1, tx) := C.NextTxData(c);
    assert c1.frameCursor > c.frameCursor && c1.IsFull() == c.IsFull();
    DrawnUpdate(m.channels, m.queue, k, c1);
  }

  /** The channel out works: the call ends without an error, and a new channel takes its first block. */
  ghost predicate Works(m: Mgr, env: Env)
    requires Linked(m)
  {
    Open(m) == 0 && m.blockCursor < |m.blocks| ==> env.adds(m.blocks[m.blockCursor]).Accepted?
  }

  lemma {:induction false} AddsKeepCursor(c: C.Channel, bs: seq<C.Block>, adds: C.Block -> C.AddReply)
    ensures AddBlocks(c, bs, adds).0.frameCursor == c.frameCursor
    decreases |bs|
  {
    if |bs| > 0 {
      var c1 := C.AddBlock(c, bs[0], adds(bs[0])).0;
      AddsKeepCursor(c1, bs[1..], adds);
    }
  }

  /** A new channel takes at least the first block if that is accepted. */
  lemma AddsFirst(c: C.Channel, bs: seq<C.Block>, adds: C.Block -> C.AddReply)
    requires !c.IsFull() && !c.closed && |bs| > 0 && adds(bs[0]).Accepted?
    ensures AddBlocks(c, bs, adds).1 >= 1
  {
  }

  lemma NewIsOpen(id: nat, cfg: C.Config, latestL1: nat)
    ensures var c := C.NewChannel(id, cfg, latestL1); !c.IsFull() && !c.closed && c.frameCursor == 0 && c.id == id
  {
  }

  /** Packing: blocks go into a channel, or at least the channel is full now. */
  lemma ProcessLeft(m: Mgr, adds: C.Block -> C.AddReply)
    requires Linked(m) && Inv(m) && m.current.Some? && !Current(m).IsFull() && m.blockCursor < |m.blocks|
    requires ProcessBlocks(m, adds).1
    ensures Left(ProcessBlocks(m, adds).0) < Left(m)
    ensures !Current(m).closed && adds(m.blocks[m.blockCursor]).Accepted? ==>
      Left(ProcessBlocks(m, adds).0) < Left(m) - 1
  {
    hide C.Inv, BlocksInv, TxsInv, LatestInv, ChannelsInv, Held, Chain, Drawn, AddBlocks, C.AddBlock, Settled;
    var bs := From(m.blocks, m.blockCursor);
    assert |bs| > 0 && bs[0] == m.blocks[m.blockCursor];
    var (c, n, ok) := AddBlocks(Current(m), bs, adds);
    AddsUntilFull(Current(m), bs, adds);
    AddsKeepCursor(Current(m), bs, adds);
    if !Current(m).closed && adds(bs[0]).Accepted? { AddsFirst(Current(m), bs, adds); }
    CurrentId(m);
    TouchLeft(m, c, m.blockCursor + n);
  }

  lemma EnsureLeft(m: Mgr, env: Env)
    requires Linked(m) && Inv(m) && env.newId !in m.channels && EnsureChannelWithSpace(m, env).1
    ensures var m1 := EnsureChannelWithSpace(m, env).0;
      && (Open(m) == 1 ==> m1 == m)
      && (Open(m) == 0 ==> Left(m1) == Left(m) + 1 && !Current(m1).closed)
  {
    hide C.Inv, BlocksInv, TxsInv, LatestInv, ChannelsInv, Held, Chain, Drawn, C.NewChannel, Settled;
    NewIsOpen(env.newId, m.cfg, m.lastL1);
    if Open(m) == 0 { DrawnAppend(m.channels, m.queue, env.newId, C.NewChannel(env.newId, m.cfg, m.lastL1)); }
  }

  /** The two steps after packing do not add to what is left. */
  lemma RegisterLeft(m: Mgr, l1Head: nat)
    requires Linked(m) && QueueInv(m.queue, m.current) && m.current.Some?
    ensures Left(RegisterL1Block(m, l1Head)) <= Left(m)
    ensures var m' := RegisterL1Block(m, l1Head); m'.queue == m.queue && m'.current == m.current
  {
    hide Drawn, Linked;
    CurrentId(m);
    TouchLeft(m, C.CheckTimeout(Current(m), l1Head), m.blockCursor);
  }

  lemma OutputLeft(m: Mgr, feed: C.FrameFeed)
    requires Linked(m) && QueueInv(m.queue, m.current) && m.current.Some?
    ensures Left(OutputFrames(m, feed).0) <= Left(m)
  {
    hide Drawn, Linked, C.OutputFrames;
    CurrentId(m);
    OutputKeepsFull(Current(m), feed);
    OutputId(Current(m), feed);
    TouchLeft(m, C.OutputFrames(Current(m), feed).0, m.blockCursor);
  }

  lemma OutputKeepsFull(c: C.Channel, feed: C.FrameFeed)
    ensures var c' := C.OutputFrames(c, feed).0; c'.frameCursor == c.frameCursor && (c.IsFull() ==> c'.IsFull())
  {
    OutputFramesRest(c, feed);
    OutputAllKeepsFull(c, feed.chunks);
    OutputAllKeepsFull(c.(closed := true), feed.chunks);
  }

  lemma {:induction false} OutputAllKeepsFull(c: C.Channel, chunks: seq<Bytes>)
    ensures c.IsFull() ==> C.OutputAll(c, chunks).IsFull()
  {
    if |chunks| > 0 { OutputAllKeepsFull(c, chunks[..|chunks| - 1]); }
  }

  lemma FillLeft(m: Mgr, l1Head: nat, pi: PubInfo, env: Env)
    requires Linked(m) && Inv(m) && env.newId !in m.channels && FeedFits(m, env.feed) && Works(m, env)
    requires m.blockCursor < |m.blocks| && !FillCurrent(m, l1Head, pi, env).1.Failed?
    ensures Left(FillCurrent(m, l1Head, pi, env).0) < Left(m)
  {
    hide C.Inv, BlocksInv, TxsInv, LatestInv, ChannelsInv, Held, Chain, Drawn, Left, AllBlocks,
      EnsureChannelWithSpace, ProcessBlocks, RegisterL1Block, OutputFrames, Settled;
    var m1 := EnsureChannelWithSpace(m, env).0;
    EnsureChannelWithSpaceInv(m, env);
    EnsureLeft(m, env);
    var m2 := ProcessBlocks(m1, env.adds).0;
    ProcessLeft(m1, env.adds);
    ProcessBlocksInv(m1, env.adds);
    RegisterLeft(m2, l1Head);
    var m3 := if pi.ignoreMaxChannelDuration then m2 else RegisterL1Block(m2, l1Head);
    OutputLeft(m3, env.feed);
  }

  /** Nothing is left to pack, and no queued channel has a transaction ready. */
  ghost predicate Drained(m: Mgr)
    requires Linked(m)
  {
    m.blockCursor == |m.blocks| && ReadyIndex(m, m.queue) == |m.queue|
  }

  /** An ordinary call: not forced, without a DA switch, and without an error. */
  ghost predicate Ordinary(m: Mgr, op: R.Op)
    requires Linked(m)
  {
    && op.Publish? && !op.pi.forcePublish && EnvFits(m, op.env) && Works(m, op.env)
    && !R.SwitchesDA(m, op.l1Head, op.pi, op.newCfg, op.env)
    && TxData(m, op.l1Head, op.pi, op.newCfg, op.env, op.retryEnv).1 != Error
  }

  /** Every ordinary call does something, unless there is nothing left to do; then it changes nothing. */
  lemma PublishLeft(m: Mgr, op: R.Op)
    requires Linked(m) && Inv(m) && Ordinary(m, op)
    ensures var (m', out) := TxData(m, op.l1Head, op.pi, op.newCfg, op.env, op.retryEnv);
      && out != Panic && (Drained(m) ==> m' == m && out == EndOfData) && (!Drained(m) ==> Left(m') < Left(m))
  {
    hide C.Inv, BlocksInv, QueueInv, TxsInv, LatestInv, ChannelsInv, Held, Chain, Drawn, Left, AllBlocks, FillCurrent,
      NextTxData, FirstWithTxData, C.Channel.HasTxData, Settled, FeedFits;
    FirstIsOldest(m, m.queue);
    var (m1, r) := GetReadyChannel(m, op.l1Head, op.pi, op.env);
    GetReadyChannelInv(m, op.l1Head, op.pi, op.env);
    if ReadyIndex(m, m.queue) < |m.queue| {
      DrawLeft(m, r.id);
      DrawInv(m, r.id);
    } else if m.blockCursor != |m.blocks| {
      CursorBound(m);
      FillLeft(m, op.l1Head, op.pi, op.env);
      if r.Got? {
        DrawLeft(m1, r.id);
        DrawInv(m1, r.id);
      }
    }
  }

  // ----- Runs -----

  /** Ordinary calls, and confirmations in time. */
  ghost predicate Steady(m: Mgr, op: R.Op)
    requires Linked(m)
  {
    R.Legal(m, op) && if op.Publish? then Ordinary(m, op) else op.Confirm? && !TimesOut(m, op.id, op.inclusion)
  }

  ghost predicate SteadyRun(m: Mgr, ops: seq<R.Op>)
    requires Linked(m)
    decreases |ops|
  {
    ops == [] || (Steady(m, ops[0]) && (R.Step(m, ops[0]).Some? ==> SteadyRun(R.Step(m, ops[0]).value, ops[1..])))
  }

  /** The calls that find something left to do. */
  ghost function Busy(m: Mgr, ops: seq<R.Op>): nat
    requires Linked(m)
    decreases |ops|
  {
    if ops == [] then 0
    else
      (if ops[0].Publish? && !Drained(m) then 1 else 0)
      + match R.Step(m, ops[0]) case None => 0 case Some(m1) => Busy(m1, ops[1..])
  }

  lemma ConfirmLeft(m: Mgr, id: C.TxId, inclusion: nat)
    requires Linked(m) && Inv(m) && !TimesOut(m, id, inclusion) && TxConfirmed(m, id, inclusion).Some?
    ensures Left(TxConfirmed(m, id, inclusion).value) == Left(m)
  {
    hide C.Inv, BlocksInv, QueueInv, TxsInv, LatestInv, ChannelsInv, Held, Chain, Settled, C.Channel.IsTimedOut;
    if id in m.txs {
      var k := m.txs[id];
      var c := C.TxConfirmed(m.channels[k], id, inclusion);
      assert c.frameCursor == m.channels[k].frameCursor && c.IsFull() == m.channels[k].IsFull();
      DrawnSame(m.channels, m.channels[k := c], m.queue);
    }
  }

  lemma StepLeft(m: Mgr, op: R.Op)
    requires Linked(m) && Inv(m) && Steady(m, op)
    ensures R.Step(m, op).Some? && Inv(R.Step(m, op).value)
    ensures Left(R.Step(m, op).value) + (if op.Publish? && !Drained(m) then 1 else 0) <= Left(m)
  {
    hide Inv, Left, Drained, TxData, TxConfirmed, TimesOut, Ordinary, R.Legal, Linked;
    R.StepInv(m, op);
    if op.Confirm? { ConfirmLeft(m, op.id, op.inclusion); } else { PublishLeft(m, op); }
  }

  lemma {:induction false} BusyBounded(m: Mgr, ops: seq<R.Op>)
    requires Linked(m) && Inv(m) && SteadyRun(m, ops)
    ensures R.Run(m, ops).Some? && Linked(R.Run(m, ops).value)
    ensures Left(R.Run(m, ops).value) + Busy(m, ops) <= Left(m)
    decreases |ops|
  {
    hide Inv, Left, Drained, R.Step, Steady, Linked;
    if ops != [] {
      StepLeft(m, ops[0]);
      BusyBounded(R.Step(m, ops[0]).value, ops[1..]);
    }
  }

  function Publishes(ops: seq<R.Op>): nat {
    if ops == [] then 0 else (if ops[0].Publish? then 1 else 0) + Publishes(ops[1..])
  }

  /** Once drained, the manager stays drained. */
  lemma DrainedStays(m: Mgr, op: R.Op)
    requires Linked(m) && Inv(m) && Steady(m, op) && R.Step(m, op).Some? && Drained(m)
    ensures Drained(R.Step(m, op).value)
  {
    hide Inv, TxData, Ordinary, R.Legal, ReadyIndex;
    if op.Publish? {
      PublishLeft(m, op);
    } else {
      ConfirmKeepsReady(m, op.id, op.inclusion);
    }
  }

  lemma ConfirmKeepsReady(m: Mgr, id: C.TxId, inclusion: nat)
    requires Linked(m) && !TimesOut(m, id, inclusion) && TxConfirmed(m, id, inclusion).Some?
    requires ReadyIndex(m, m.queue) == |m.queue|
    ensures var m' := TxConfirmed(m, id, inclusion).value;
      m'.queue == m.queue && m'.blocks == m.blocks && m'.blockCursor == m.blockCursor && Linked(m')
      && ReadyIndex(m', m'.queue) == |m'.queue|
  {
    hide C.Channel.IsTimedOut;
    var m' := TxConfirmed(m, id, inclusion).value;
    forall i | 0 <= i < |m.queue| ensures !m'.channels[m.queue[i]].HasTxData() {
      assert !m.channels[m.queue[i]].HasTxData();
    }
  }

  lemma {:induction false} BusyOrDrained(m: Mgr, ops: seq<R.Op>)
    requires Linked(m) && Inv(m) && SteadyRun(m, ops)
    ensures R.Run(m, ops).Some? && Linked(R.Run(m, ops).value)
    ensures Drained(m) ==> Drained(R.Run(m, ops).value)
    ensures Busy(m, ops) == Publishes(ops) || Drained(R.Run(m, ops).value)
    decreases |ops|
  {
    hide Inv, Drained, R.Step, Steady, Linked;
    if ops != [] {
      StepLeft(m, ops[0]);
      if Drained(m) { DrainedStays(m, ops[0]); }
      BusyOrDrained(R.Step(m, ops[0]).value, ops[1..]);
    }
  }

  /** In a run of ordinary calls and confirmations in time, with B unpacked blocks at the start and F frames drawn on
      the way: after more than 2 * B + 1 + F calls the manager is drained, that is every block is packed and every
      transaction that is ready has been drawn. */
  lemma PublishingDrains(m: Mgr, ops: seq<R.Op>)
    requires Linked(m) && Inv(m) && SteadyRun(m, ops)
    ensures R.Run(m, ops).Some? && Linked(R.Run(m, ops).value)
    ensures var m' := R.Run(m, ops).value;
      || Drained(m')
      || Publishes(ops) <= 2 * Unpacked(m) + 1 + Drawn(m'.channels, m'.queue) - Drawn(m.channels, m.queue)
  {
    hide Inv, Drained, SteadyRun, R.Run, Busy, Drawn, Linked;
    BusyBounded(m, ops);
    BusyOrDrained(m, ops);
    RunCursor(m, ops);
  }

  lemma {:induction false} RunCursor(m: Mgr, ops: seq<R.Op>)
    requires Linked(m) && Inv(m) && SteadyRun(m, ops)
    ensures R.Run(m, ops).Some? && Unpacked(R.Run(m, ops).value) >= 0
    decreases |ops|
  {
    hide Drained, R.Step, Steady, C.Inv, QueueInv, TxsInv, LatestInv, ChannelsInv, Held, Chain, Settled;
    if ops != [] {
      StepLeft(m, ops[0]);
      RunCursor(R.Step(m, ops[0]).value, ops[1..]);
    }
  }
}
