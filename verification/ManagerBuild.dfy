/** Building channels, drawing transactions and invalidating channels keep the manager's invariant and
    leave the blocks still to be delivered exactly as they were. */
module ManagerBuild {
  import opened Prelude
  import opened Manager
  import opened ManagerInv
  import C = Channels

  // ----- A new channel -----

  lemma EnsureChannelWithSpaceInv(m: Mgr, env: Env)
    requires Inv(m) && env.newId !in m.channels
    ensures var (m', ok) := EnsureChannelWithSpace(m, env);
      && Inv(m') && AllBlocks(m') == AllBlocks(m)
      && m'.blocks == m.blocks && m'.blockCursor == m.blockCursor
      && (ok ==> !Current(m').IsFull())
      && (ok ==> Current(m').frames == [] || (m.current.Some? && Current(m') == Current(m)))
      && (forall k :: k in m.channels ==> k in m'.channels && m'.channels[k] == m.channels[k])
  {
    hide C.Inv, BlocksInv, Chain, Held, TxsInv, LatestInv, ChannelsInv, QueueInv, AllBlocks;
    if (m.current.None? || Current(m).IsFull()) && env.factoryOk {
      C.NewChannelInv(env.newId, m.cfg, m.lastL1);
      NewChannelCore(m, C.NewChannel(env.newId, m.cfg, m.lastL1));
    }
  }

  lemma NewChannelCore(m: Mgr, c: C.Channel)
    requires Core(m) && c.id !in m.channels && C.Inv(c) && c.blocks == [] && c.pending == map[] && c.latestL2 == 0
    ensures var m' := m.(channels := m.channels[c.id := c], current := Some(c.id), queue := m.queue + [c.id]);
      Core(m') && AllBlocks(m') == AllBlocks(m)
  {
    hide C.Inv, BlocksInv, Chain, Held, TxsInv;
    HeldNewEmpty(m.channels, m.queue, c.id, c);
    TxsNewChannel(m.txs, m.queue, m.channels, c.id, c);
  }

  lemma HeldNewEmpty(channels: map<nat, C.Channel>, queue: seq<nat>, id: nat, c: C.Channel)
    requires id !in channels && c.blocks == []
    requires forall i :: 0 <= i < |queue| ==> queue[i] in channels
    ensures Held(channels[id := c], queue + [id]) == Held(channels, queue)
  {
    HeldSame(channels, channels[id := c], queue);
    var q := queue + [id];
    assert q[..|q| - 1] == queue;
  }

  lemma TxsNewChannel(txs: map<C.TxId, nat>, queue: seq<nat>, channels: map<nat, C.Channel>, id: nat, c: C.Channel)
    requires TxsInv(txs, queue, channels) && id !in channels && c.pending == map[]
    ensures TxsInv(txs, queue + [id], channels[id := c])
  {
    var channels' := channels[id := c];
    assert forall k, t :: Awaits(channels', k, t) ==> Awaits(channels, k, t);
    assert forall k, t :: Awaits(channels, k, t) ==> Awaits(channels', k, t);
  }

  // ----- Moving blocks into the current channel -----

  lemma AddBlockEffect(c: C.Channel, b: C.Block, reply: C.AddReply)
    requires !c.IsFull()
    ensures var (c', result) := C.AddBlock(c, b, reply);
      && c'.pending == c.pending && c'.frames == c.frames && c'.closed == c.closed
      && c'.blocks == (if result == C.BlockAdded then c.blocks + [b] else c.blocks)
      && (result == C.AddFailed ==> !c'.IsFull())
  {
  }

  lemma {:induction false} AddBlocksInv(c: C.Channel, bs: seq<C.Block>, adds: C.Block -> C.AddReply)
    requires C.Inv(c) && !c.IsFull()
    ensures var (c', n, ok) := AddBlocks(c, bs, adds);
      && C.Inv(c') && c'.blocks == c.blocks + bs[..n]
      && c'.pending == c.pending && c'.frames == c.frames && c'.closed == c.closed && (!ok ==> !c'.IsFull())
    decreases |bs|
  {
    hide C.Inv, C.AddBlock;
    if |bs| > 0 {
      var (c1, result) := C.AddBlock(c, bs[0], adds(bs[0]));
      C.AddBlockInv(c, bs[0], adds(bs[0]));
      AddBlockEffect(c, bs[0], adds(bs[0]));
      if result == C.BlockAdded && !c1.IsFull() {
        var n := AddBlocks(c1, bs[1..], adds).1;
        AddBlocksInv(c1, bs[1..], adds);
        assert bs[..n + 1] == [bs[0]] + bs[1..][..n];
        assert c1.blocks + bs[1..][..n] == c.blocks + bs[..n + 1];
      } else if result == C.BlockAdded {
        assert bs[..1] == [bs[0]];
      }
    }
  }

  /** Numbers grow along a chain, so the largest number seen is the last block's. */
  lemma {:induction false} AddBlocksLatest(c: C.Channel, bs: seq<C.Block>, adds: C.Block -> C.AddReply)
    requires Chain(c.blocks + bs) && c.latestL2 == LastNumber(c.blocks)
    ensures var c' := AddBlocks(c, bs, adds).0; c'.latestL2 == LastNumber(c'.blocks)
    decreases |bs|
  {
    if |bs| > 0 {
      var (c1, result) := C.AddBlock(c, bs[0], adds(bs[0]));
      if result == C.BlockAdded {
        assert c1.latestL2 == LastNumber(c1.blocks) by { NextIsLater(c.blocks, bs); }
        if !c1.IsFull() {
          assert c1.blocks + bs[1..] == c.blocks + bs;
          AddBlocksLatest(c1, bs[1..], adds);
        }
      }
    }
  }

  lemma NextIsLater(cs: seq<C.Block>, bs: seq<C.Block>)
    requires Chain(cs + bs) && |bs| > 0
    ensures Max(LastNumber(cs), bs[0].number) == bs[0].number
  {
    var all := cs + bs;
    assert all[|cs|] == bs[0];
    if cs != [] { assert all[|cs| - 1] == cs[|cs| - 1]; }
  }

  lemma HeldLast(channels: map<nat, C.Channel>, queue: seq<nat>, k: nat, c: C.Channel)
    requires |queue| > 0 && queue[|queue| - 1] == k && k in channels
    requires forall i, j :: 0 <= i < j < |queue| ==> queue[i] != queue[j]
    ensures Held(channels[k := c], queue) == Held(channels, queue[..|queue| - 1]) + c.blocks
  {
    HeldSame(channels, channels[k := c], queue[..|queue| - 1]);
  }

  lemma MovedBlocks(front: seq<C.Block>, had: seq<C.Block>, bs: seq<C.Block>, n: nat)
    requires n <= |bs|
    ensures (front + (had + bs[..n])) + bs[n..] == (front + had) + bs
  {
    assert bs == bs[..n] + bs[n..];
  }

  /** The last channel takes the first `n` unprocessed blocks. */
  lemma MoveBlocks(blocks: seq<C.Block>, cursor: nat, tip: nat, front: seq<C.Block>, had: seq<C.Block>, n: nat)
    requires BlocksInv(blocks, cursor, tip, front + had) && cursor + n <= |blocks|
    ensures var held' := front + (had + From(blocks, cursor)[..n]);
      && held' + From(blocks, cursor + n) == front + had + From(blocks, cursor)
      && BlocksInv(blocks, cursor + n, tip, held')
    ensures Chain(had + From(blocks, cursor))
  {
    hide Chain;
    var bs := From(blocks, cursor);
    MovedBlocks(front, had, bs, n);
    assert From(blocks, cursor + n) == bs[n..];
    var all := front + had + bs;
    assert all[|front|..] == had + bs;
    ChainDrop(all, |front|);
  }

  lemma ProcessBlocksInv(m: Mgr, adds: C.Block -> C.AddReply)
    requires Inv(m) && m.current.Some? && !Current(m).IsFull()
    ensures var (m', ok) := ProcessBlocks(m, adds);
      && Core(m') && AllBlocks(m') == AllBlocks(m)
      && m'.blocks == m.blocks && m'.current == m.current && m'.queue == m.queue
      && m'.channels.Keys == m.channels.Keys
      && SettledBut(m'.channels, m.current.value) && (!ok ==> !Current(m').IsFull())
      && Current(m').frames == Current(m).frames
  {
    hide C.Inv, TxsInv, AddBlocks, Held, Chain, BlocksInv;
    var k := m.current.value;
    var c := Current(m);
    CursorBound(m);
    var bs := From(m.blocks, m.blockCursor);
    var (c', n, ok) := AddBlocks(c, bs, adds);
    AddBlocksInv(c, bs, adds);
    var front := Held(m.channels, m.queue[..|m.queue| - 1]);
    HeldLast(m.channels, m.queue, k, c');
    HeldLast(m.channels, m.queue, k, c);
    assert m.channels[k := c] == m.channels;
    MoveBlocks(m.blocks, m.blockCursor, m.tip, front, c.blocks, n);
    AddBlocksLatest(c, bs, adds);
    TxsSamePending(m.txs, m.queue, m.channels, k, c');
  }

  lemma TxsSamePending(txs: map<C.TxId, nat>, queue: seq<nat>, channels: map<nat, C.Channel>, k: nat, c: C.Channel)
    requires TxsInv(txs, queue, channels) && k in channels && c.pending == channels[k].pending
    ensures TxsInv(txs, queue, channels[k := c])
  {
    var channels' := channels[k := c];
    assert forall j, t :: Awaits(channels', j, t) <==> Awaits(channels, j, t);
  }

  /** Settled, except possibly for channel `k`, which is being filled. */
  ghost predicate SettledBut(channels: map<nat, C.Channel>, k: nat) {
    forall j :: j in channels && j != k ==> channels[j].IsFull() ==> channels[j].closed
  }

  // ----- Deadlines and frames -----

  lemma RegisterL1BlockInv(m: Mgr, l1Head: nat)
    requires Core(m) && m.current.Some? && SettledBut(m.channels, m.current.value)
    ensures var m' := RegisterL1Block(m, l1Head);
      && Core(m') && AllBlocks(m') == AllBlocks(m) && SettledBut(m'.channels, m.current.value)
      && m'.blocks == m.blocks && m'.current == m.current && Current(m').frames == Current(m).frames
  {
    hide C.Inv, BlocksInv, QueueInv, TxsInv, LatestInv, ChannelsInv, Chain, Held, AllBlocks;
    var c := Current(m);
    CurrentInv(m);
    C.CheckTimeoutInv(c, l1Head);
    TouchChannel(m, C.CheckTimeout(c, l1Head));
  }

  lemma CurrentInv(m: Mgr)
    requires Linked(m) && ChannelsInv(m.channels) && m.current.Some?
    ensures C.Inv(Current(m))
  {
  }

  lemma OutputFramesRest(c: C.Channel, feed: C.FrameFeed)
    ensures var c' := C.OutputFrames(c, feed).0;
      c' == c.(frames := c'.frames, full := c'.full, closed := c'.closed, history := c'.history)
  {
    C.OutputAllRest(c, feed.chunks);
    C.OutputAllRest(c.(closed := true), feed.chunks);
  }

  lemma OutputFramesInv(m: Mgr, feed: C.FrameFeed)
    requires Core(m) && m.current.Some? && SettledBut(m.channels, m.current.value)
    requires |Current(m).frames| + |feed.chunks| <= C.MAX_FRAMES
    ensures var (m', ok) := OutputFrames(m, feed);
      && Inv(m') && AllBlocks(m') == AllBlocks(m) && m'.blocks == m.blocks && m'.current == m.current
  {
    hide C.Inv, BlocksInv, QueueInv, TxsInv, LatestInv, ChannelsInv, Chain, Held, AllBlocks, C.OutputAll;
    var c := Current(m);
    CurrentInv(m);
    C.OutputFramesInv(c, feed);
    OutputFramesRest(c, feed);
    TouchChannel(m, C.OutputFrames(c, feed).0);
  }

  /** A feed that keeps frame numbers below the uint16 limit, in the current channel or in a new one. */
  ghost predicate FeedFits(m: Mgr, feed: C.FrameFeed)
    requires Linked(m)
  {
    |feed.chunks| + (if m.current.Some? then |Current(m).frames| else 0) <= C.MAX_FRAMES
  }

  // ----- getReadyChannel -----

  lemma FillCurrentInv(m: Mgr, l1Head: nat, pi: PubInfo, env: Env)
    requires Inv(m) && env.newId !in m.channels && FeedFits(m, env.feed)
    ensures var (m', r) := FillCurrent(m, l1Head, pi, env);
      && Inv(m') && AllBlocks(m') == AllBlocks(m) && m'.blocks == m.blocks && r != Crashed
      && (r.Got? ==> r.id in m'.queue && m'.channels[r.id].HasTxData())
  {
    hide C.Inv, BlocksInv, TxsInv, LatestInv, ChannelsInv, Chain, Held, AllBlocks, OutputFrames, ProcessBlocks,
      RegisterL1Block, EnsureChannelWithSpace;
    var (m1, ok1) := EnsureChannelWithSpace(m, env);
    EnsureChannelWithSpaceInv(m, env);
    if ok1 {
      var (m2, ok2) := ProcessBlocks(m1, env.adds);
      ProcessBlocksInv(m1, env.adds);
      if ok2 {
        var m3 := if pi.ignoreMaxChannelDuration then m2 else RegisterL1Block(m2, l1Head);
        RegisterL1BlockInv(m2, l1Head);
        var (m4, ok4) := OutputFrames(m3, env.feed);
        OutputFramesInv(m3, env.feed);
      } else {
        assert Settled(m2.channels);
      }
    }
  }

  lemma CursorBound(m: Mgr)
    requires BlocksInv(m.blocks, m.blockCursor, m.tip, Held(m.channels, m.queue))
    ensures m.blockCursor <= |m.blocks|
  {
  }

  lemma ForceCloseInv(m: Mgr, feed: C.FrameFeed)
    requires Inv(m) && m.current.Some? && |Current(m).frames| + |feed.chunks| <= C.MAX_FRAMES
    ensures var (m', ok) := ForceClose(m, feed);
      && Inv(m') && AllBlocks(m') == AllBlocks(m) && m'.blocks == m.blocks && m'.current == m.current
      && m'.channels.Keys == m.channels.Keys
      && (forall k :: k in m.channels && Some(k) != m.current ==> m'.channels[k] == m.channels[k])
  {
    hide C.Inv, BlocksInv, QueueInv, TxsInv, LatestInv, ChannelsInv, Chain, Held, AllBlocks, C.OutputFrames;
    var c := Current(m);
    CurrentInv(m);
    C.CloseInv(c);
    TouchChannel(m, C.Close(c));
    OutputFramesInv(SetChannel(m, C.Close(c)), feed);
    OutputFramesRest(C.Close(c), feed);
  }

  /** The answers of the channel out and its factory respect their contracts in state `m`: a fresh
      channel id, and frame numbers below the uint16 limit. */
  ghost predicate EnvFits(m: Mgr, env: Env)
    requires Linked(m)
  {
    env.newId !in m.channels && FeedFits(m, env.feed) && FeedFits(m, env.forceFeed)
    && |env.feed.chunks| + |env.forceFeed.chunks| <= C.MAX_FRAMES
  }

  lemma GetReadyChannelInv(m: Mgr, l1Head: nat, pi: PubInfo, env: Env)
    requires Inv(m) && EnvFits(m, env)
    ensures var (m', r) := GetReadyChannel(m, l1Head, pi, env);
      && Inv(m') && AllBlocks(m') == AllBlocks(m) && m'.blocks == m.blocks
      && (r == Crashed <==> pi.forcePublish && m.current.None?)
      && (r.Got? ==> r.id in m'.queue && m'.channels[r.id].HasTxData())
  {
    hide C.Inv, BlocksInv, QueueInv, TxsInv, LatestInv, ChannelsInv, Chain, Held, AllBlocks, C.OutputFrames,
      ForceClose, FillCurrent;
    if !(pi.forcePublish && m.current.None?) {
      var forced := pi.forcePublish && |Current(m).frames| == 0;
      var (m1, ok) := if forced then ForceClose(m, env.forceFeed) else (m, true);
      if forced { ForceCloseInv(m, env.forceFeed); }
      if ok && FirstWithTxData(m1, m1.queue).None? && m1.blockCursor != |m1.blocks| {
        assert FeedFits(m1, env.feed) by { if forced { ForcedFits(m, env); } }
        FillCurrentInv(m1, l1Head, pi, env);
      }
    }
  }

  /** Forcing a channel closed happens only while it has no frames, so both feeds together still fit. */
  lemma ForcedFits(m: Mgr, env: Env)
    requires Inv(m) && EnvFits(m, env) && m.current.Some? && |Current(m).frames| == 0
    ensures FeedFits(ForceClose(m, env.forceFeed).0, env.feed)
  {
    hide C.Inv, BlocksInv, QueueInv, TxsInv, LatestInv, ChannelsInv, Chain, Held, AllBlocks, ForceClose;
    var m' := ForceClose(m, env.forceFeed).0;
    ForceCloseInv(m, env.forceFeed);
    ForceCloseFrames(m, env.forceFeed);
  }

  lemma ForceCloseFrames(m: Mgr, feed: C.FrameFeed)
    requires Linked(m) && m.current.Some? && |Current(m).frames| == 0
    ensures var m' := ForceClose(m, feed).0; m'.current == m.current && |Current(m').frames| <= |feed.chunks|
  {
    var c := C.Close(Current(m));
    OutputAllLength(c, feed.chunks);
    OutputAllLength(c.(closed := true), feed.chunks);
  }

  lemma {:induction false} OutputAllLength(c: C.Channel, chunks: seq<Bytes>)
    ensures |C.OutputAll(c, chunks).frames| == |c.frames| + |chunks|
  {
    if |chunks| > 0 { OutputAllLength(c, chunks[..|chunks| - 1]); }
  }
}
