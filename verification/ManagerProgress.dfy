/** What the channel manager gets done: blocks are packed until the channel is full, and the oldest channel
    with data is always served first. */
module ManagerProgress {
  import opened Prelude
  import opened Manager
  import opened ManagerInv
  import opened ManagerBuild
  import C = Channels

  lemma {:induction false} AddsUntilFull(c: C.Channel, bs: seq<C.Block>, adds: C.Block -> C.AddReply)
    requires !c.IsFull()
    ensures var (c', n, ok) := AddBlocks(c, bs, adds);
      (ok ==> n == |bs| || c'.IsFull()) && (!ok ==> n < |bs| && !c'.IsFull())
    decreases |bs|
  {
    if |bs| > 0 {
      var (c1, result) := C.AddBlock(c, bs[0], adds(bs[0]));
      if result == C.BlockAdded && !c1.IsFull() { AddsUntilFull(c1, bs[1..], adds); }
    }
  }

  /** Unless the channel out breaks, processBlocks stops only at a full channel or when every block is in one. */
  lemma ProcessesUntilFull(m: Mgr, adds: C.Block -> C.AddReply)
    requires Inv(m) && m.current.Some? && !Current(m).IsFull()
    ensures var (m', ok) := ProcessBlocks(m, adds);
      (ok ==> m'.blockCursor == |m.blocks| || Current(m').IsFull()) && (!ok ==> m'.blockCursor < |m.blocks|)
  {
    hide C.Inv, Chain, Held, TxsInv, LatestInv, ChannelsInv, QueueInv, AddBlocks, C.AddBlock;
    AddsUntilFull(Current(m), From(m.blocks, m.blockCursor), adds);
  }

  /** The first position whose channel has data, or the length if there is none. */
  function ReadyIndex(m: Mgr, queue: seq<nat>): (i: nat)
    requires forall i :: 0 <= i < |queue| ==> queue[i] in m.channels
    ensures i <= |queue|
    ensures forall j :: 0 <= j < i ==> !m.channels[queue[j]].HasTxData()
    ensures i < |queue| ==> m.channels[queue[i]].HasTxData()
  {
    if |queue| == 0 || m.channels[queue[0]].HasTxData() then 0 else 1 + ReadyIndex(m, queue[1..])
  }

  lemma {:induction false} FirstIsOldest(m: Mgr, queue: seq<nat>)
    requires forall i :: 0 <= i < |queue| ==> queue[i] in m.channels
    ensures var i := ReadyIndex(m, queue);
      FirstWithTxData(m, queue) == if i < |queue| then Some(queue[i]) else None
  {
    if |queue| > 0 { FirstIsOldest(m, queue[1..]); }
  }

  /** Only the last channel was touched. */
  ghost predicate SameButLast(m: Mgr, m': Mgr)
    requires Linked(m) && Linked(m')
  {
    && m'.current.Some? && |m'.queue| > 0 && m'.queue[|m'.queue| - 1] == m'.current.value
    && m'.queue[..|m'.queue| - 1] <= m.queue
    && forall i :: 0 <= i < |m'.queue| - 1 ==>
         m'.queue[i] in m.channels && m'.channels[m'.queue[i]] == m.channels[m'.queue[i]]
  }

  lemma TouchLast(m: Mgr, m1: Mgr, c: C.Channel, cursor: nat)
    requires Linked(m) && Linked(m1) && SameButLast(m, m1) && QueueInv(m1.queue, m1.current) && c.id == m1.current.value
    ensures SameButLast(m, SetChannel(m1, c)) && SameButLast(m, SetChannel(m1, c).(blockCursor := cursor))
  {
  }

  lemma OutputId(c: C.Channel, feed: C.FrameFeed)
    ensures C.OutputFrames(c, feed).0.id == c.id
  {
    OutputAllId(c, feed.chunks);
    OutputAllId(c.(closed := true), feed.chunks);
  }

  lemma OpenTouchesLast(m: Mgr, env: Env)
    requires Inv(m) && env.newId !in m.channels
    ensures var (m1, ok) := EnsureChannelWithSpace(m, env); ok ==> SameButLast(m, m1) && QueueInv(m1.queue, m1.current)
  {
    hide C.Inv, C.NewChannel, Chain, Held, BlocksInv, TxsInv, LatestInv, ChannelsInv, AllBlocks;
    var m1 := EnsureChannelWithSpace(m, env).0;
    if m1 != m {
      assert m1.queue[..|m1.queue| - 1] == m.queue;
      forall i | 0 <= i < |m.queue| ensures m.queue[i] != env.newId && m1.queue[i] == m.queue[i] {
        assert m.queue[i] in m.queue;
      }
    }
  }

  lemma ProcessTouchesLast(m: Mgr, m1: Mgr, adds: C.Block -> C.AddReply)
    requires Linked(m) && Linked(m1) && m1.current.Some? && SameButLast(m, m1) && QueueInv(m1.queue, m1.current)
    ensures var m2 := ProcessBlocks(m1, adds).0; SameButLast(m, m2) && QueueInv(m2.queue, m2.current)
  {
    hide SameButLast, AddBlocks, Linked;
    var (c, n, ok) := AddBlocks(Current(m1), From(m1.blocks, m1.blockCursor), adds);
    CurrentId(m1);
    TouchLast(m, m1, c, m1.blockCursor + n);
  }

  lemma RegisterTouchesLast(m: Mgr, m1: Mgr, l1Head: nat)
    requires Linked(m) && Linked(m1) && m1.current.Some? && SameButLast(m, m1) && QueueInv(m1.queue, m1.current)
    ensures var m2 := RegisterL1Block(m1, l1Head); SameButLast(m, m2) && QueueInv(m2.queue, m2.current)
  {
    hide SameButLast, Linked;
    CurrentId(m1);
    TouchLast(m, m1, C.CheckTimeout(Current(m1), l1Head), 0);
  }

  lemma OutputTouchesLast(m: Mgr, m1: Mgr, feed: C.FrameFeed)
    requires Linked(m) && Linked(m1) && m1.current.Some? && SameButLast(m, m1) && QueueInv(m1.queue, m1.current)
    ensures var m2 := OutputFrames(m1, feed).0; SameButLast(m, m2) && QueueInv(m2.queue, m2.current)
  {
    hide SameButLast, Linked, C.OutputFrames;
    CurrentId(m1);
    OutputId(Current(m1), feed);
    TouchLast(m, m1, C.OutputFrames(Current(m1), feed).0, 0);
  }

  lemma FillTouchesLast(m: Mgr, l1Head: nat, pi: PubInfo, env: Env)
    requires Linked(m) && Inv(m) && env.newId !in m.channels
    ensures var (m', r) := FillCurrent(m, l1Head, pi, env);
      r.Got? || r.NoData? ==>
        SameButLast(m, m') && Current(m').HasTxData() == r.Got? && (r.Got? ==> r.id == m'.current.value)
  {
    hide Inv, Linked, QueueInv, ProcessBlocks, RegisterL1Block, OutputFrames, EnsureChannelWithSpace;
    var (m1, ok1) := EnsureChannelWithSpace(m, env);
    if ok1 {
      OpenTouchesLast(m, env);
      ProcessTouchesLast(m, m1, env.adds);
      var m2 := ProcessBlocks(m1, env.adds).0;
      RegisterTouchesLast(m, m2, l1Head);
      var m3 := if pi.ignoreMaxChannelDuration then m2 else RegisterL1Block(m2, l1Head);
      OutputTouchesLast(m, m3, env.feed);
    }
  }

  /** If only the last channel was touched and no channel had data before, only the last can have data now. */
  lemma LastIsOldest(m: Mgr, m': Mgr)
    requires Linked(m) && Linked(m') && SameButLast(m, m') && ReadyIndex(m, m.queue) == |m.queue|
    ensures ReadyIndex(m', m'.queue) == if Current(m').HasTxData() then |m'.queue| - 1 else |m'.queue|
  {
    forall i | 0 <= i < |m'.queue| - 1 ensures !m'.channels[m'.queue[i]].HasTxData() {
      assert m'.queue[i] == m'.queue[..|m'.queue| - 1][i] == m.queue[i];
    }
    var i := ReadyIndex(m', m'.queue);
    assert i < |m'.queue| ==> m'.channels[m'.queue[i]].HasTxData();
  }

  /** getReadyChannel answers with the oldest channel that has data, and says there is none only when no
      queued channel has any. */
  lemma OldestChannelFirst(m: Mgr, l1Head: nat, pi: PubInfo, env: Env)
    requires Linked(m) && Inv(m) && EnvFits(m, env)
    ensures var (m', r) := GetReadyChannel(m, l1Head, pi, env);
      var i := ReadyIndex(m', m'.queue);
      && (r.Got? ==> i < |m'.queue| && r.id == m'.queue[i])
      && (r.NoData? ==> i == |m'.queue|)
  {
    hide C.Inv, BlocksInv, QueueInv, TxsInv, LatestInv, ChannelsInv, Chain, Held, AllBlocks, ForceClose, FillCurrent,
      FirstWithTxData, C.Channel.HasTxData, FeedFits, Settled;
    if pi.forcePublish && m.current.None? { return; }
    var (m1, ok) := if pi.forcePublish && |Current(m).frames| == 0 then ForceClose(m, env.forceFeed) else (m, true);
    if !ok { return; }
    if pi.forcePublish && |Current(m).frames| == 0 { ForceCloseInv(m, env.forceFeed); }
    FirstIsOldest(m1, m1.queue);
    if ReadyIndex(m1, m1.queue) == |m1.queue| && m1.blockCursor != |m1.blocks| {
      FillTouchesLast(m1, l1Head, pi, env);
      var (m', r) := FillCurrent(m1, l1Head, pi, env);
      if r.Got? || r.NoData? { LastIsOldest(m1, m'); }
    }
  }
}
