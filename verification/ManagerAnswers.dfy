/** What each call of the channel manager answers and changes, told from the state before it and from what the channel
    out and its factory answer. */
module ManagerAnswers {
  import opened Prelude
  import opened Manager
  import opened ManagerInv
  import opened ManagerBuild
  import opened ManagerProgress
  import C = Channels

  // ----- Loading and clearing -----

  /** A block is refused iff it does not extend the last one loaded; an accepted one is appended. */
  lemma AddL2BlockExactly(m: Mgr, b: C.Block)
    requires Inv(m)
    ensures m.blocks != [] ==> (AddL2Block(m, b).None? <==> b.parent != m.blocks[|m.blocks| - 1].hash)
    ensures m.blocks == [] ==> (AddL2Block(m, b).None? <==> m.tip != 0 && b.parent != m.tip)
    ensures AddL2Block(m, b).Some? ==> AddL2Block(m, b).value == m.(blocks := m.blocks + [b], tip := b.hash)
  {
    hide C.Inv, QueueInv, TxsInv, LatestInv, ChannelsInv, Held;
    if m.blocks != [] {
      var all := AllBlocks(m);
      assert all[|all| - 1] == m.blocks[|m.blocks| - 1];
    }
  }

  /** Only the configuration and the channels that receipts may still name survive a clear. The next channel's duration
      counts from the L1 block given. */
  lemma ClearExactly(m: Mgr, l1Origin: nat)
    ensures Clear(m, l1Origin) == Initial(m.cfg).(lastL1 := l1Origin, channels := m.channels)
  {
  }

  // ----- Channels -----

  /** The current channel keeps taking blocks until it is full. Then a new one with the current configuration joins the
      end of the queue, unless the factory fails; its duration counts from the L1 origin of what was sent last. */
  lemma OpenExactly(m: Mgr, env: Env)
    requires Linked(m)
    ensures var (m', ok) := EnsureChannelWithSpace(m, env);
      if m.current.Some? && m.channels[m.current.value].full.None? then m' == m && ok
      else if !env.factoryOk then m' == m && !ok
      else
        && ok && m'.current == Some(env.newId) && m'.queue == m.queue + [env.newId]
        && m' == m.(channels := m.channels[env.newId := m'.channels[env.newId]], current := m'.current,
                    queue := m'.queue)
        && var c := m'.channels[env.newId];
           && c.cfg == m.cfg && c.full.None? && !c.closed && c.blocks == [] && c.frames == []
           && c.pending == map[] && c.confirmed == map[]
           && (m.cfg.maxChannelDuration > 0 && m.lastL1 + m.cfg.maxChannelDuration <= MAX_UINT64 ==>
                 c.timeout == m.lastL1 + m.cfg.maxChannelDuration && c.timeoutReason == C.MaxDurationReached)
           && (m.cfg.maxChannelDuration == 0 ==> c.timeout == 0)
  {
    hide C.NewChannel;
    C.NewExactly(env.newId, m.cfg, m.lastL1);
  }

  /** `c'` is `c` after it was told that L1 has reached `l1Head`: an open channel whose timeout has come is full. */
  ghost predicate Registers(c: C.Channel, l1Head: nat, c': C.Channel) {
    c' == c.(full := if c.full.None? && c.timeout != 0 && c.timeout <= l1Head then Some(c.timeoutReason) else c.full)
  }

  // ----- getReadyChannel -----

  /** `m'` is `m` after the current channel was closed and asked for frames because publishing is forced. */
  ghost predicate ForcesClose(m: Mgr, feed: C.FrameFeed, m': Mgr, ok: bool)
    requires Linked(m) && m.current.Some?
  {
    var c := m.channels[m.current.value];
    && m.current.value in m'.channels
    && C.Outputs(c.(full := if c.full.Some? then c.full else Some(C.Terminated)), feed,
                 m'.channels[m.current.value], ok)
    && m' == m.(channels := m.channels[m.current.value := m'.channels[m.current.value]])
  }

  lemma ForceCloses(m: Mgr, feed: C.FrameFeed)
    requires Inv(m) && m.current.Some? && |Current(m).frames| + |feed.chunks| <= C.MAX_FRAMES
    ensures ForcesClose(m, feed, ForceClose(m, feed).0, ForceClose(m, feed).1)
  {
    hide C.Inv, BlocksInv, QueueInv, TxsInv, LatestInv, Chain, Held, AllBlocks, C.OutputFrames, C.Outputs;
    var c := Current(m);
    CurrentId(m);
    CurrentInv(m);
    C.CloseExactly(c);
    assert C.Numbered(c.id, c.frames) by { InvNumbered(c); }
    C.OutputFramesWithin(C.Close(c), feed);
    var c' := C.OutputFrames(C.Close(c), feed).0;
    assert c'.id == c.id by { OutputId(C.Close(c), feed); }
    assert m.channels[c.id := C.Close(c)][c.id := c'] == m.channels[c.id := c'];
  }

  lemma InvNumbered(c: C.Channel)
    requires C.Inv(c)
    ensures C.Numbered(c.id, c.frames)
  {
  }

  /** `c'` is the open channel `c` after it was offered the blocks `bs`: it takes `n` of them in order, all accepted,
      and stops after one that fills it, or before one that its channel out refuses, which fills it, or fails on; `ok`
      says that nothing failed. */
  ghost predicate Packs(c: C.Channel, bs: seq<C.Block>, adds: C.Block -> C.AddReply, c': C.Channel, n: nat, ok: bool)
  {
    && n <= |bs| && c'.blocks == c.blocks + bs[..n]
    && c'.id == c.id && c'.cfg == c.cfg && c'.closed == c.closed && c'.frames == c.frames
    && c'.frameCursor == c.frameCursor && c'.pending == c.pending && c'.confirmed == c.confirmed
    && (forall i :: 0 <= i < n ==> adds(bs[i]).Accepted? && (i < n - 1 ==> adds(bs[i]).full.None?))
    && if n > 0 && adds(bs[n - 1]).full.Some? then ok && c'.full == adds(bs[n - 1]).full
       else if n == |bs| then ok && c'.full.None?
       else
         && !adds(bs[n]).Accepted? && (ok <==> adds(bs[n]).Refused?)
         && c'.full == if ok then Some(adds(bs[n]).reason) else None
  }

  lemma {:induction false} AddBlocksExactly(c: C.Channel, bs: seq<C.Block>, adds: C.Block -> C.AddReply)
    requires c.full.None? && !c.closed
    ensures var (c', n, ok) := AddBlocks(c, bs, adds); Packs(c, bs, adds, c', n, ok)
    decreases |bs|
  {
    hide C.AddBlock, AddBlocks;
    if bs == [] {
      AddBlocksNone(c, adds);
      assert c.blocks + bs[..0] == c.blocks;
    } else {
      var b := bs[0];
      AddBlocksStep(c, bs, adds);
      C.AddBlockExactly(c, b, adds(b));
      AddBlockRest(c, b, adds(b));
      var (c1, result) := C.AddBlock(c, b, adds(b));
      assert bs[..0] == [] && c.blocks + [] == c.blocks && bs[..1] == [b];
      if result == C.BlockAdded && c1.full.None? {
        AddBlocksExactly(c1, bs[1..], adds);
        var (c', n, ok) := AddBlocks(c1, bs[1..], adds);
        PacksMore(c, c1, bs, adds, c', n, ok);
      }
    }
  }

  lemma PacksMore(c: C.Channel, c1: C.Channel, bs: seq<C.Block>, adds: C.Block -> C.AddReply, c': C.Channel, n: nat,
                  ok: bool)
    requires bs != [] && Packs(c1, bs[1..], adds, c', n, ok)
    requires c1.blocks == c.blocks + [bs[0]] && adds(bs[0]) == C.Accepted(None)
    requires c1.id == c.id && c1.cfg == c.cfg && c1.closed == c.closed && c1.frames == c.frames
    requires c1.frameCursor == c.frameCursor && c1.pending == c.pending && c1.confirmed == c.confirmed
    ensures Packs(c, bs, adds, c', n + 1, ok)
  {
    assert bs[..n + 1] == [bs[0]] + bs[1..][..n];
    assert c.blocks + bs[..n + 1] == c1.blocks + bs[1..][..n];
    forall i | 0 <= i < n + 1 ensures adds(bs[i]).Accepted? && (i < n ==> adds(bs[i]).full.None?) {
      if i > 0 { assert bs[i] == bs[1..][i - 1]; }
    }
  }

  lemma AddBlockRest(c: C.Channel, b: C.Block, reply: C.AddReply)
    ensures var c' := C.AddBlock(c, b, reply).0;
      && c'.id == c.id && c'.cfg == c.cfg && c'.closed == c.closed && c'.frames == c.frames
      && c'.frameCursor == c.frameCursor && c'.pending == c.pending && c'.confirmed == c.confirmed
  {
  }

  /** The stages of the channel that blocks are packed into: with space, with the blocks it took, `n` in number, told of
      L1's head, and asked for frames. */
  datatype Filling = Filling(c: C.Channel, packed: C.Channel, n: nat, ok: bool, told: C.Channel, framed: C.Channel)

  /** How blocks are packed once there is a channel with space: an error of the channel out ends it, and the deadlines
      are looked at only unless that is to be left out. */
  ghost predicate Fills(m: Mgr, l1Head: nat, pi: PubInfo, env: Env, f: Filling, m': Mgr, r: Ready)
    requires Linked(m) && m.current.Some?
  {
    && f.c == m.channels[m.current.value]
    && Packs(f.c, From(m.blocks, m.blockCursor), env.adds, f.packed, f.n, f.ok)
    && m' == m.(blockCursor := m.blockCursor + f.n,
                channels := m.channels[m.current.value := if f.ok then f.framed else f.packed])
    && if !f.ok then r == Failed
       else
         && (if pi.ignoreMaxChannelDuration then f.told == f.packed else Registers(f.packed, l1Head, f.told))
         && C.Outputs(f.told, env.feed, f.framed, r != Failed)
         && (r != Failed ==> r == if f.framed.HasTxData() then Got(m.current.value) else NoData)
  }

  lemma InvOpen(c: C.Channel)
    requires C.Inv(c) && c.full.None?
    ensures !c.closed
  {
  }

  lemma SetTwice(m: Mgr, c: C.Channel, c': C.Channel)
    requires Linked(m) && c.id in m.channels && c'.id == c.id
    ensures SetChannel(SetChannel(m, c), c') == SetChannel(m, c')
  {
    assert m.channels[c.id := c][c.id := c'] == m.channels[c.id := c'];
  }

  /** Packing blocks into the channel that EnsureChannelWithSpace leaves, which OpenExactly describes. */
  lemma FillExactly(m: Mgr, l1Head: nat, pi: PubInfo, env: Env) returns (f: Filling)
    requires Inv(m) && env.newId !in m.channels && FeedFits(m, env.feed)
    ensures var (m1, ok) := EnsureChannelWithSpace(m, env);
      var (m', r) := FillCurrent(m, l1Head, pi, env);
      if ok then m1.current.Some? && Fills(m1, l1Head, pi, env, f, m', r) else m' == m1 && r == Failed
  {
    hide C.Inv, BlocksInv, QueueInv, TxsInv, LatestInv, Chain, Held, AllBlocks, EnsureChannelWithSpace, Packs,
      C.Outputs, AddBlocks, C.OutputFrames, C.CheckTimeout, From, Linked;
    var (m1, ok1) := EnsureChannelWithSpace(m, env);
    EnsureChannelWithSpaceInv(m, env);
    if !ok1 {
      var c := C.NewChannel(0, m.cfg, 0);
      return Filling(c, c, 0, false, c, c);
    }
    var c, bs := Current(m1), From(m1.blocks, m1.blockCursor);
    CurrentInv(m1);
    CurrentId(m1);
    InvOpen(c);
    AddBlocksExactly(c, bs, env.adds);
    AddBlocksInv(c, bs, env.adds);
    var (packed, n, ok) := AddBlocks(c, bs, env.adds);
    var told := if pi.ignoreMaxChannelDuration then packed else C.CheckTimeout(packed, l1Head);
    var (framed, ok4) := C.OutputFrames(told, env.feed);
    f := Filling(c, packed, n, ok, told, framed);
    RegistersExactly(packed, l1Head);
    PacksFrames(c, bs, env.adds, packed, n, ok);
    if ok {
      assert C.Numbered(told.id, told.frames) by { InvNumbered(c); }
      FrameRoom(m, m1, env);
      C.OutputFramesWithin(told, env.feed);
      OutputId(told, env.feed);
      FillStages(m1, c, packed, n, told, framed);
    }
  }

  lemma FrameRoom(m: Mgr, m1: Mgr, env: Env)
    requires Linked(m) && Linked(m1) && FeedFits(m, env.feed) && m1.current.Some?
    requires Current(m1).frames == [] || (m.current.Some? && Current(m1) == Current(m))
    ensures |Current(m1).frames| + |env.feed.chunks| <= C.MAX_FRAMES
  {
  }

  lemma RegistersExactly(c: C.Channel, l1Head: nat)
    ensures Registers(c, l1Head, C.CheckTimeout(c, l1Head))
  {
  }

  lemma PacksFrames(c: C.Channel, bs: seq<C.Block>, adds: C.Block -> C.AddReply, c': C.Channel, n: nat, ok: bool)
    requires Packs(c, bs, adds, c', n, ok)
    ensures c'.id == c.id && c'.frames == c.frames
  {
  }

  /** Setting the stages of the current channel one after the other is setting the last. */
  lemma FillStages(m: Mgr, c: C.Channel, packed: C.Channel, n: nat, told: C.Channel, framed: C.Channel)
    requires Linked(m) && m.current == Some(c.id) && packed.id == told.id == framed.id == c.id
    ensures var m2 := SetChannel(m, packed).(blockCursor := m.blockCursor + n);
      && Linked(m2) && Current(m2) == packed && Current(SetChannel(m2, told)) == told
      && SetChannel(SetChannel(m2, told), framed)
         == m.(blockCursor := m.blockCursor + n, channels := m.channels[c.id := framed])
      && SetChannel(m2, framed) == m.(blockCursor := m.blockCursor + n, channels := m.channels[c.id := framed])
  {
    SetTwice(m, packed, told);
    SetTwice(m, packed, framed);
    SetTwice(SetChannel(m, packed), told, framed);
  }

  /** getReadyChannel: a channel without frames is closed first if publishing is forced. Then the first channel with
      data is answered; if there is none, blocks are packed, as FillExactly says, unless none is left. `m1` is the state
      in between. */
  lemma ReadyExactly(m: Mgr, l1Head: nat, pi: PubInfo, env: Env) returns (m1: Mgr, ok: bool)
    requires Inv(m) && EnvFits(m, env)
    ensures Linked(m1)
    ensures var (m', r) := GetReadyChannel(m, l1Head, pi, env);
      if pi.forcePublish && m.current.None? then m' == m && r == Crashed
      else
        && (if pi.forcePublish && m.channels[m.current.value].frames == [] then ForcesClose(m, env.forceFeed, m1, ok)
            else m1 == m && ok)
        && (!ok ==> m' == m1 && r == Failed)
        && (forall i :: 0 <= i < |m1.queue| && ok && m1.channels[m1.queue[i]].HasTxData()
                        && (forall j :: 0 <= j < i ==> !m1.channels[m1.queue[j]].HasTxData()) ==>
              m' == m1 && r == Got(m1.queue[i]))
        && (ok && (forall i :: 0 <= i < |m1.queue| ==> !m1.channels[m1.queue[i]].HasTxData()) ==>
              if m1.blockCursor == |m1.blocks| then m' == m1 && r == NoData
              else (m', r) == FillCurrent(m1, l1Head, pi, env))
  {
    hide C.Inv, BlocksInv, QueueInv, TxsInv, LatestInv, ChannelsInv, Chain, Held, AllBlocks, ForceClose, FillCurrent,
      ForcesClose, C.Channel.HasTxData, FirstWithTxData;
    m1, ok := m, true;
    if pi.forcePublish && m.current.None? { return; }
    if pi.forcePublish && |Current(m).frames| == 0 {
      ForceCloses(m, env.forceFeed);
      var (m2, ok2) := ForceClose(m, env.forceFeed);
      m1, ok := m2, ok2;
    }
    FirstIsOldest(m1, m1.queue);
    var first := ReadyIndex(m1, m1.queue);
    forall i | 0 <= i < |m1.queue| && m1.channels[m1.queue[i]].HasTxData()
               && (forall j :: 0 <= j < i ==> !m1.channels[m1.queue[j]].HasTxData())
      ensures i == first
    {
    }
  }

  // ----- Transactions -----

  /** Only the queue, the cursor, the current channel and the channels change on the way to a ready channel, and no
      channel joins the queue if the ready one was submitted in part. */
  lemma ReadyFrame(m: Mgr, l1Head: nat, pi: PubInfo, env: Env)
    requires Inv(m) && EnvFits(m, env)
    ensures var (m', r) := GetReadyChannel(m, l1Head, pi, env);
      && m'.cfg == m.cfg && m'.lastL1 == m.lastL1 && m'.txs == m.txs && m'.tip == m.tip && m'.blocks == m.blocks
      && (r.Got? && (m'.channels[r.id].pending != map[] || m'.channels[r.id].confirmed != map[]) ==>
            m'.queue == m.queue)
  {
    hide C.Inv, BlocksInv, QueueInv, TxsInv, LatestInv, ChannelsInv, Chain, Held, AllBlocks, FillCurrent,
      C.Channel.HasTxData, FirstWithTxData, C.OutputFrames, EnsureChannelWithSpace, C.Close;
    if pi.forcePublish && m.current.None? { return; }
    var forced := pi.forcePublish && |Current(m).frames| == 0;
    var (m1, ok) := if forced then ForceClose(m, env.forceFeed) else (m, true);
    if forced { ForceCloseInv(m, env.forceFeed); }
    if ok && FirstWithTxData(m1, m1.queue).None? && m1.blockCursor != |m1.blocks| {
      assert FeedFits(m1, env.feed) by { if forced { ForcedFits(m, env); } }
      FillFrame(m1, l1Head, pi, env);
    }
  }

  lemma FillFrame(m: Mgr, l1Head: nat, pi: PubInfo, env: Env)
    requires Inv(m) && env.newId !in m.channels && FeedFits(m, env.feed)
    ensures var (m', r) := FillCurrent(m, l1Head, pi, env);
      && m'.cfg == m.cfg && m'.lastL1 == m.lastL1 && m'.txs == m.txs && m'.tip == m.tip && m'.blocks == m.blocks
      && (r.Got? && (m'.channels[r.id].pending != map[] || m'.channels[r.id].confirmed != map[]) ==>
            m'.queue == m.queue)
  {
    hide C.Inv, BlocksInv, QueueInv, TxsInv, LatestInv, ChannelsInv, Chain, Held, FillCurrent, EnsureChannelWithSpace,
      FeedFits, C.Channel.HasTxData, Linked;
    var f := FillExactly(m, l1Head, pi, env);
    OpenExactly(m, env);
  }

  /** The next frames of the channel, up to as many as a transaction carries. */
  ghost predicate SendsNext(c: C.Channel, out: TxOut) {
    var n := if c.cfg.useBlobs then c.cfg.targetNumFrames else 1;
    c.frameCursor <= |c.frames| && n >= 1 && out == Tx(c.frames[c.frameCursor..Min(c.frameCursor + n, |c.frames|)])
  }

  /** Drawing from a channel with data: the next frames, up to as many as a transaction carries, are sent, indexed under
      their ids and pending in the channel, and the next channel's duration counts from the newest L1 origin sent. */
  lemma DrawExactly(m: Mgr, k: nat)
    requires Inv(m) && k in m.channels && m.channels[k].HasTxData()
    ensures var (m', out) := NextTxData(m, k);
      var c := m.channels[k];
      && SendsNext(c, out)
      && k in m'.channels && m'.channels[k].frameCursor == c.frameCursor + |out.frames|
      && (exists id :: |id| == |out.frames| && (forall i :: 0 <= i < |id| ==> id[i] == out.frames[i].id)
                       && m'.txs == m.txs[id := k] && m'.channels[k].pending == c.pending[id := out.frames])
      && m' == m.(lastL1 := m'.lastL1, txs := m'.txs, channels := m.channels[k := m'.channels[k]])
      && m'.lastL1 >= m.lastL1 && (forall b :: b in c.blocks ==> b.l1Origin <= m'.lastL1)
      && (m'.lastL1 == m.lastL1 || exists b :: b in c.blocks && b.l1Origin == m'.lastL1)
  {
    hide BlocksInv, QueueInv, TxsInv, LatestInv, Chain, Held, AllBlocks, C.Inv, C.Channel.HasTxData, C.IdOf;
    var c := m.channels[k];
    assert C.Inv(c);
    assert SendsNext(c, Tx(C.NextTxData(c).1)) by { DrawsNext(c); }
    assert C.Newest(c.blocks, c.latestL1, c.latestL2) by { InvNewest(c); }
    C.DrawnPending(c);
  }

  lemma DrawFrame(m: Mgr, k: nat)
    requires Inv(m) && k in m.channels && m.channels[k].HasTxData()
    ensures var (m', out) := NextTxData(m, k); m'.cfg == m.cfg && m'.queue == m.queue && SendsNext(m.channels[k], out)
  {
    hide Inv, NextTxData, SendsNext, C.Channel.HasTxData;
    DrawExactly(m, k);
  }

  lemma DrawsNext(c: C.Channel)
    requires C.Inv(c) && c.HasTxData()
    ensures SendsNext(c, Tx(C.NextTxData(c).1))
  {
    hide C.NextTxData, C.Channel.HasTxData, C.TimeInv, C.Carries, C.Newest;
    C.ReadyExactly(c);
    C.SizeOf(c);
  }

  lemma InvNewest(c: C.Channel)
    requires C.Inv(c)
    ensures C.Newest(c.blocks, c.latestL1, c.latestL2)
  {
  }

  /** Something of the channel was submitted: a transaction of it is pending or confirmed. */
  ghost predicate Submitted(c: C.Channel) {
    c.pending != map[] || c.confirmed != map[]
  }

  /** Once something of the first ready channel was submitted, its next transaction is drawn and the configuration and
      the queue stay, whatever the provider prefers. The configuration changes iff nothing of it was submitted and the
      provider prefers the other DA type. */
  lemma SwitchExactly(m: Mgr, l1Head: nat, pi: PubInfo, newCfg: C.Config, env: Env, retryEnv: Env)
    requires Inv(m) && EnvFits(m, env)
    ensures var (m1, r) := GetReadyChannel(m, l1Head, pi, env);
      var (m', out) := TxData(m, l1Head, pi, newCfg, env, retryEnv);
      && (r.Got? && Submitted(m1.channels[r.id]) ==>
            m'.cfg == m.cfg && m'.queue == m.queue && SendsNext(m1.channels[r.id], out))
      && (out != Panic ==>
            m'.cfg == if r.Got? && !Submitted(m1.channels[r.id]) && newCfg.useBlobs != m.cfg.useBlobs
                      then newCfg else m.cfg)
  {
    hide C.Inv, BlocksInv, QueueInv, TxsInv, LatestInv, ChannelsInv, Chain, Held, AllBlocks, GetReadyChannel,
      RequeueAndRetry, NextTxData, C.Channel.HasTxData, SubmitFrom, Switches, Submitted, SendsNext, Linked;
    ReadyFrame(m, l1Head, pi, env);
    GetReadyChannelInv(m, l1Head, pi, env);
    var (m1, r) := GetReadyChannel(m, l1Head, pi, env);
    if r.Got? {
      SubmitsExactly(m1, r.id, l1Head, pi, newCfg, retryEnv);
      if Submitted(m1.channels[r.id]) || newCfg.useBlobs == m.cfg.useBlobs {
        DrawFrame(m1, r.id);
        assert Submitted(m1.channels[r.id]) ==> m1.queue == m.queue by { SubmittedMeans(m1.channels[r.id]); }
      } else {
        RetryCfg(m1, r.id, l1Head, pi, newCfg, retryEnv);
      }
    }
  }

  lemma SubmittedMeans(c: C.Channel)
    ensures Submitted(c) <==> c.pending != map[] || c.confirmed != map[]
  {
  }

  lemma SubmitsExactly(m: Mgr, k: nat, l1Head: nat, pi: PubInfo, newCfg: C.Config, env: Env)
    requires Linked(m) && k in m.channels
    ensures SubmitFrom(m, k, l1Head, pi, newCfg, env) ==
      if !Submitted(m.channels[k]) && newCfg.useBlobs != m.cfg.useBlobs
      then RequeueAndRetry(m, k, l1Head, pi, newCfg, env) else NextTxData(m, k)
  {
    hide RequeueAndRetry, NextTxData, Linked;
    C.EmptyMap(m.channels[k].pending);
    C.EmptyMap(m.channels[k].confirmed);
  }

  /** After a switch the manager works with the new configuration. */
  lemma RetryCfg(m: Mgr, k: nat, l1Head: nat, pi: PubInfo, newCfg: C.Config, env: Env)
    requires Linked(m) && k in m.channels
    ensures var (m', out) := RequeueAndRetry(m, k, l1Head, pi, newCfg, env); out != Panic ==> m'.cfg == newCfg
  {
    hide C.Inv, Invalidate, C.Channel.HasTxData, FirstWithTxData, C.OutputFrames, EnsureChannelWithSpace, C.Close,
      ProcessBlocks, RegisterL1Block, C.NextTxData;
    if Invalidate(m, k).Some? { ReadyCfg(Invalidate(m, k).value.(cfg := newCfg), l1Head, pi, env); }
  }

  lemma ReadyCfg(m: Mgr, l1Head: nat, pi: PubInfo, env: Env)
    requires Linked(m)
    ensures GetReadyChannel(m, l1Head, pi, env).0.cfg == m.cfg
  {
    hide C.Channel.HasTxData, FirstWithTxData, C.OutputFrames, C.Close, FillCurrent, Linked;
    if !(pi.forcePublish && m.current.None?) {
      var m1 := if pi.forcePublish && |Current(m).frames| == 0 then ForceClose(m, env.forceFeed).0 else m;
      FillCfg(m1, l1Head, pi, env);
    }
  }

  lemma FillCfg(m: Mgr, l1Head: nat, pi: PubInfo, env: Env)
    requires Linked(m)
    ensures FillCurrent(m, l1Head, pi, env).0.cfg == m.cfg
  {
    hide C.Channel.HasTxData, C.OutputFrames, C.NewChannel, C.CheckTimeout, AddBlocks, Linked;
  }

  /** What an attempt to send answers: nothing to send, an error and a panic are passed on, and otherwise the next
      transaction is drawn from the ready channel, as DrawExactly says. */
  ghost predicate Sends(m: Mgr, r: Ready, m': Mgr, out: TxOut)
    requires Linked(m) && (r.Got? ==> r.id in m.channels)
  {
    match r
    case NoData => m' == m && out == EndOfData
    case Failed => m' == m && out == Error
    case Crashed => m' == m && out == Panic
    case Got(k) => (m', out) == NextTxData(m, k)
  }

  /** The whole of TxData: it sends from the first ready channel, unless the DA type is to be switched. Then that
      channel is invalidated, and it sends from the first channel ready under the new configuration. */
  lemma TxDataExactly(m: Mgr, l1Head: nat, pi: PubInfo, newCfg: C.Config, env: Env, retryEnv: Env)
    requires Linked(m)
    ensures var (m1, r) := GetReadyChannel(m, l1Head, pi, env);
      var (m', out) := TxData(m, l1Head, pi, newCfg, env, retryEnv);
      if r.Got? && !Submitted(m1.channels[r.id]) && newCfg.useBlobs != m1.cfg.useBlobs then
        match Invalidate(m1, r.id)
        case None => m' == m1 && out == Panic
        case Some(m2) =>
          var (m3, r3) := GetReadyChannel(m2.(cfg := newCfg), l1Head, pi, retryEnv);
          Sends(m3, r3, m', out)
      else Sends(m1, r, m', out)
  {
    hide GetReadyChannel, Invalidate, NextTxData, Submitted, Linked;
    var (m1, r) := GetReadyChannel(m, l1Head, pi, env);
    if r.Got? { SubmitsExactly(m1, r.id, l1Head, pi, newCfg, retryEnv); }
  }

  // ----- Invalidation -----

  /** Invalidating a channel drops it and all newer ones from the queue (all channels if it is not queued), and the
      transactions of those from the index. There is no current channel then, and the block cursor is back at the
      channel's first block, or where it was if it has none. When it panics is in ManagerInvalidate. */
  lemma InvalidateExactly(m: Mgr, k: nat)
    requires Linked(m) && k in m.channels
    ensures m.channels[k].blocks == [] ==> Invalidate(m, k).Some?
    ensures Invalidate(m, k).Some? ==>
      var m' := Invalidate(m, k).value;
      var n, c := |m'.queue|, m.channels[k];
      && n <= |m.queue| && m'.queue == m.queue[..n] && k !in m.queue[..n]
      && (if k in m.queue then n < |m.queue| && m.queue[n] == k else n == 0)
      && (forall id :: id in m'.txs <==> id in m.txs && m.txs[id] !in m.queue[n..])
      && (forall id :: id in m'.txs ==> m'.txs[id] == m.txs[id])
      && m' == m.(queue := m'.queue, txs := m'.txs, current := None, blockCursor := m'.blockCursor)
      && (if c.blocks == [] then m'.blockCursor == m.blockCursor
          else m'.blockCursor < m.blockCursor && m'.blockCursor < |m.blocks|
               && m.blocks[m'.blockCursor].hash == c.blocks[0].hash)
  {
  }

  // ----- Receipts -----

  /** A failed transaction of a known channel is no longer pending or indexed, and what is drawn next from the channel
      begins with its first frame or an earlier one. Any other failure changes nothing. */
  lemma FailExactly(m: Mgr, id: C.TxId)
    requires Inv(m)
    ensures TxFailed(m, id).Some?
    ensures id !in m.txs ==> TxFailed(m, id).value == m
    ensures id in m.txs ==>
      var k, c := m.txs[id], m.channels[m.txs[id]];
      && |id| > 0
      && TxFailed(m, id).value
         == m.(txs := m.txs - {id},
               channels := m.channels[k := c.(pending := c.pending - {id},
                                              frameCursor := Min(c.frameCursor, id[0].number))])
  {
    hide C.Inv, BlocksInv, QueueInv, LatestInv, Chain, Held, C.TxFailed;
    if id in m.txs {
      var k := m.txs[id];
      assert Awaits(m.channels, k, id);
      C.TxFailedNoPanic(m.channels[k], id);
    }
  }

  /** The confirmation of a known channel's transaction moves it from pending to confirmed and out of the index. If that
      leaves two inclusions ChannelTimeout or more apart the channel is then invalidated, and otherwise nothing else
      changes. Any other confirmation changes nothing. */
  lemma ConfirmExactly(m: Mgr, id: C.TxId, inclusion: nat)
    requires Inv(m) && inclusion <= MAX_UINT64
    ensures id !in m.txs ==> TxConfirmed(m, id, inclusion) == Some(m)
    ensures id in m.txs ==>
      var k, c := m.txs[id], m.channels[m.txs[id]];
      var m1 := RecordConfirmed(m, id, inclusion);
      && k in m1.channels
      && var c1 := m1.channels[k];
         && m1 == m.(txs := m.txs - {id}, channels := m.channels[k := c1])
         && c1.pending == c.pending - {id} && c1.confirmed == c.confirmed[id := inclusion]
         && c1.history.inclusions == c.history.inclusions + [inclusion]
         && c1.frames == c.frames && c1.frameCursor == c.frameCursor && c1.blocks == c.blocks
         && c1.full == c.full && c1.closed == c.closed
         && TxConfirmed(m, id, inclusion) ==
            if exists a, b :: a in c1.history.inclusions && b in c1.history.inclusions && a - b >= c.cfg.channelTimeout
            then Invalidate(m1, k) else Some(m1)
  {
    hide C.Inv, BlocksInv, QueueInv, LatestInv, Chain, Held, C.TxConfirmed, Invalidate, C.Channel.IsTimedOut;
    if id in m.txs {
      var k := m.txs[id];
      assert Awaits(m.channels, k, id);
      C.TxConfirmedExactly(m.channels[k], id, inclusion);
      C.TxConfirmedInv(m.channels[k], id, inclusion);
      var c1 := C.TxConfirmed(m.channels[k], id, inclusion);
      assert C.TimeInv(c1) && c1.cfg == m.channels[k].cfg by { ConfirmedTime(m.channels[k], id, inclusion); }
      C.TimedOutMeansSpread(c1);
    }
  }

  lemma ConfirmedTime(c: C.Channel, id: C.TxId, inclusion: nat)
    requires C.Inv(C.TxConfirmed(c, id, inclusion))
    ensures C.TimeInv(C.TxConfirmed(c, id, inclusion)) && C.TxConfirmed(c, id, inclusion).cfg == c.cfg
  {
  }
}
