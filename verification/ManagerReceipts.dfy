/** Receipts that arrive long after their channel left the queue. */
module ManagerReceipts {
  import opened Prelude
  import opened Manager
  import opened ManagerInv
  import opened ManagerBuild
  import opened ManagerInvalidate
  import opened SyncActions
  import R = ManagerRuns
  import C = Channels

  /** A step that prunes nothing: channels enter the queue only when they are new, channels outside the queue are
      not touched, and the index refers to a channel only while it is queued or as long as it did before. */
  ghost predicate Follows(m: Mgr, m': Mgr) {
    && m.channels.Keys <= m'.channels.Keys && m'.blocks == m.blocks && m'.tip == m.tip
    && (forall k :: k in m'.queue ==> k in m.queue || k !in m.channels)
    && (forall k :: k in m.channels && k !in m.queue ==> m'.channels[k].blocks == m.channels[k].blocks)
    && (forall id :: id in m'.txs ==> m'.txs[id] in m'.queue
                                      || (id in m.txs && m.txs[id] == m'.txs[id] && m'.txs[id] !in m.queue))
  }

  lemma FollowsTwice(m: Mgr, m1: Mgr, m2: Mgr)
    requires Linked(m) && Linked(m1) && Follows(m, m1) && Follows(m1, m2)
    ensures Follows(m, m2)
  {
    forall id | id in m2.txs && m2.txs[id] !in m2.queue
      ensures id in m.txs && m.txs[id] == m2.txs[id] && m2.txs[id] !in m.queue
    {
      assert id in m1.txs && m1.txs[id] == m2.txs[id] && m2.txs[id] !in m1.queue;
    }
    forall k | k in m.channels && k !in m.queue ensures m2.channels[k].blocks == m.channels[k].blocks {
      assert k in m1.channels && k !in m1.queue;
    }
  }

  /** The current channel, if any, is in the queue. */
  ghost predicate CurrentQueued(m: Mgr) {
    m.current.Some? ==> m.current.value in m.queue
  }

  /** Changing the current channel only. */
  lemma TouchFollows(m: Mgr, c: C.Channel, cursor: nat)
    requires Linked(m) && CurrentQueued(m) && m.current == Some(c.id)
    ensures Follows(m, SetChannel(m, c)) && Follows(m, SetChannel(m, c).(blockCursor := cursor))
    ensures CurrentQueued(SetChannel(m, c))
  {
  }

  lemma OutputFollows(m: Mgr, feed: C.FrameFeed)
    requires Linked(m) && m.current.Some? && CurrentQueued(m)
    ensures Follows(m, OutputFrames(m, feed).0)
  {
    hide Follows, Linked, CurrentQueued;
    CurrentId(m);
    OutputAllId(Current(m), feed.chunks);
    OutputAllId(Current(m).(closed := true), feed.chunks);
    TouchFollows(m, C.OutputFrames(Current(m), feed).0, 0);
  }

  lemma ForceCloseFollows(m: Mgr, feed: C.FrameFeed)
    requires Linked(m) && m.current.Some? && CurrentQueued(m)
    ensures Follows(m, ForceClose(m, feed).0)
  {
    hide Follows, CurrentQueued, OutputFrames;
    CurrentId(m);
    var m1 := SetChannel(m, C.Close(Current(m)));
    TouchFollows(m, C.Close(Current(m)), 0);
    OutputFollows(m1, feed);
    FollowsTwice(m, m1, ForceClose(m, feed).0);
  }

  lemma EnsureFollows(m: Mgr, env: Env)
    requires Linked(m) && CurrentQueued(m) && env.newId !in m.channels
    ensures Follows(m, EnsureChannelWithSpace(m, env).0) && CurrentQueued(EnsureChannelWithSpace(m, env).0)
  {
    hide C.NewChannel;
  }

  lemma ProcessFollows(m: Mgr, adds: C.Block -> C.AddReply)
    requires Linked(m) && m.current.Some? && CurrentQueued(m)
    ensures Follows(m, ProcessBlocks(m, adds).0) && CurrentQueued(ProcessBlocks(m, adds).0)
  {
    hide Follows, Linked, AddBlocks;
    var (c, n, ok) := AddBlocks(Current(m), From(m.blocks, m.blockCursor), adds);
    CurrentId(m);
    TouchFollows(m, c, m.blockCursor + n);
  }

  lemma RegisterFollows(m: Mgr, l1Head: nat)
    requires Linked(m) && m.current.Some? && CurrentQueued(m)
    ensures Follows(m, RegisterL1Block(m, l1Head)) && CurrentQueued(RegisterL1Block(m, l1Head))
  {
    hide Follows, Linked;
    CurrentId(m);
    TouchFollows(m, C.CheckTimeout(Current(m), l1Head), 0);
  }

  lemma Stays(m: Mgr)
    ensures Follows(m, m)
  {
  }

  lemma FillFollows(m: Mgr, l1Head: nat, pi: PubInfo, env: Env)
    requires Linked(m) && CurrentQueued(m) && env.newId !in m.channels
    ensures Follows(m, FillCurrent(m, l1Head, pi, env).0)
  {
    hide Follows, Linked, CurrentQueued, EnsureChannelWithSpace, ProcessBlocks, RegisterL1Block, OutputFrames;
    var (m1, ok1) := EnsureChannelWithSpace(m, env);
    EnsureFollows(m, env);
    if ok1 {
      var (m2, ok2) := ProcessBlocks(m1, env.adds);
      ProcessFollows(m1, env.adds);
      FollowsTwice(m, m1, m2);
      if ok2 {
        var m3 := if pi.ignoreMaxChannelDuration then m2 else RegisterL1Block(m2, l1Head);
        RegisterFollows(m2, l1Head);
        if !pi.ignoreMaxChannelDuration { FollowsTwice(m, m2, m3); }
        OutputFollows(m3, env.feed);
        FollowsTwice(m, m3, OutputFrames(m3, env.feed).0);
      }
    }
  }

  lemma ReadyFollows(m: Mgr, l1Head: nat, pi: PubInfo, env: Env)
    requires Linked(m) && Inv(m) && EnvFits(m, env)
    ensures Follows(m, GetReadyChannel(m, l1Head, pi, env).0)
  {
    hide Follows, FillCurrent, ForceClose, C.Inv, BlocksInv, TxsInv, LatestInv, ChannelsInv, Settled, FeedFits,
      FirstWithTxData;
    Stays(m);
    if !(pi.forcePublish && m.current.None?) {
      var forced := pi.forcePublish && |Current(m).frames| == 0;
      var (m1, ok) := if forced then ForceClose(m, env.forceFeed) else (m, true);
      if forced {
        ForceCloseFollows(m, env.forceFeed);
        ForceCloseInv(m, env.forceFeed);
      }
      if ok && FirstWithTxData(m1, m1.queue).None? && m1.blockCursor != |m1.blocks| {
        FillFollows(m1, l1Head, pi, env);
        FollowsTwice(m, m1, FillCurrent(m1, l1Head, pi, env).0);
      }
    }
  }

  lemma DrawFollows(m: Mgr, k: nat)
    requires Linked(m) && k in m.queue && k in m.channels
    ensures Follows(m, NextTxData(m, k).0)
  {
    hide C.IdOf, C.GroupAt;
  }

  lemma InvalidateFollows(m: Mgr, k: nat)
    requires Linked(m) && k in m.channels && Invalidate(m, k).Some?
    ensures Follows(m, Invalidate(m, k).value)
  {
    var i := IndexOf(m.queue, k);
    assert m.queue == m.queue[..i] + m.queue[i..];
  }

  lemma PublishFollows(m: Mgr, l1Head: nat, pi: PubInfo, newCfg: C.Config, env: Env, retryEnv: Env)
    requires Linked(m) && Inv(m) && R.Legal(m, R.Publish(l1Head, pi, newCfg, env, retryEnv))
    ensures Follows(m, TxData(m, l1Head, pi, newCfg, env, retryEnv).0)
  {
    hide Follows, C.Inv, BlocksInv, QueueInv, TxsInv, LatestInv, ChannelsInv, Settled, FeedFits, GetReadyChannel,
      NextTxData, Invalidate, CanInvalidate, AllBlocks;
    var (m1, r) := GetReadyChannel(m, l1Head, pi, env);
    ReadyFollows(m, l1Head, pi, env);
    GetReadyChannelInv(m, l1Head, pi, env);
    if r.Got? && !Switches(m1, r.id, newCfg) {
      DrawFollows(m1, r.id);
      FollowsTwice(m, m1, NextTxData(m1, r.id).0);
    } else if r.Got? {
      assert R.SwitchesDA(m, l1Head, pi, newCfg, env);
      InvalidateConserves(m1, r.id);
      var m2 := Invalidate(m1, r.id).value;
      RetryFollows(m1, m2, r.id, l1Head, pi, newCfg, retryEnv);
      FollowsTwice(m, m1, RequeueAndRetry(m1, r.id, l1Head, pi, newCfg, retryEnv).0);
    }
  }

  lemma RetryFollows(m1: Mgr, m2: Mgr, k: nat, l1Head: nat, pi: PubInfo, newCfg: C.Config, env: Env)
    requires Linked(m1) && k in m1.channels && Invalidate(m1, k) == Some(m2) && Inv(m2) && newCfg.Checked()
    requires EnvFits(m1, env)
    ensures Follows(m1, RequeueAndRetry(m1, k, l1Head, pi, newCfg, env).0)
  {
    hide Follows, C.Inv, BlocksInv, QueueInv, TxsInv, LatestInv, ChannelsInv, Settled, GetReadyChannel, NextTxData,
      Invalidate, AllBlocks;
    InvalidateFollows(m1, k);
    R.InvalidateClearsCurrent(m1, k);
    R.ChangeCfg(m2, newCfg);
    var m3 := m2.(cfg := newCfg);
    assert Follows(m1, m3) by { CfgFollows(m1, m2, newCfg); }
    var (m4, r) := GetReadyChannel(m3, l1Head, pi, env);
    ReadyFollows(m3, l1Head, pi, env);
    GetReadyChannelInv(m3, l1Head, pi, env);
    FollowsTwice(m1, m3, m4);
    if r.Got? {
      DrawFollows(m4, r.id);
      FollowsTwice(m1, m4, NextTxData(m4, r.id).0);
    }
  }

  lemma CfgFollows(m: Mgr, m': Mgr, cfg: C.Config)
    requires Follows(m, m')
    ensures Follows(m, m'.(cfg := cfg))
  {
  }

  lemma FailFollows(m: Mgr, id: C.TxId)
    requires Linked(m) && Inv(m)
    ensures TxFailed(m, id).Some? && Follows(m, TxFailed(m, id).value)
  {
    hide C.Inv, BlocksInv, QueueInv, TxsInv, LatestInv, Settled, Chain, Held;
    if id in m.txs { C.TxFailedNoPanic(m.channels[m.txs[id]], id); }
  }

  lemma ConfirmFollows(m: Mgr, id: C.TxId, inclusion: nat)
    requires Linked(m) && TxConfirmed(m, id, inclusion).Some?
    ensures Follows(m, TxConfirmed(m, id, inclusion).value)
  {
    hide Follows, Linked, Invalidate, RecordConfirmed, TimesOut;
    Stays(m);
    if id in m.txs {
      RecordFollows(m, id, inclusion);
      if TimesOut(m, id, inclusion) {
        var m1 := RecordConfirmed(m, id, inclusion);
        InvalidateFollows(m1, m.txs[id]);
        FollowsTwice(m, m1, Invalidate(m1, m.txs[id]).value);
      }
    }
  }

  lemma RecordFollows(m: Mgr, id: C.TxId, inclusion: nat)
    requires Linked(m) && id in m.txs
    ensures Follows(m, RecordConfirmed(m, id, inclusion))
  {
  }

  // ----- Dropped channels stay dropped -----

  /** The channel exists but is out of the queue, and no receipt leads to it. */
  ghost predicate Detached(m: Mgr, j: nat) {
    j in m.channels && j !in m.queue && forall id :: id in m.txs ==> m.txs[id] != j
  }

  lemma FollowsDetached(m: Mgr, m': Mgr, j: nat)
    requires Follows(m, m') && Detached(m, j)
    ensures Detached(m', j)
  {
  }

  lemma SyncDetached(m: Mgr, s: SyncStatus, prev: nat, j: nat)
    requires Linked(m) && Detached(m, j) && SyncAndPrune(m, s, prev).0.Some?
    ensures Detached(SyncAndPrune(m, s, prev).0.value, j)
  {
    hide Compute, Linked;
  }

  lemma StepDetached(m: Mgr, op: R.Op, j: nat)
    requires Linked(m) && Inv(m) && R.Legal(m, op) && Detached(m, j)
    ensures R.Step(m, op).Some? && Detached(R.Step(m, op).value, j)
  {
    hide Follows, Inv, Detached, TxData, TxConfirmed, TxFailed, SyncAndPrune, R.Legal, Linked;
    R.StepInv(m, op);
    match op
    case Load(b) => assert AddL2Block(m, b).Some? ==> Detached(AddL2Block(m, b).value, j) by { LoadDetached(m, b, j); }
    case Publish(l1Head, pi, newCfg, env, retryEnv) =>
      PublishFollows(m, l1Head, pi, newCfg, env, retryEnv);
      FollowsDetached(m, TxData(m, l1Head, pi, newCfg, env, retryEnv).0, j);
    case Fail(id) =>
      FailFollows(m, id);
      FollowsDetached(m, TxFailed(m, id).value, j);
    case Confirm(id, inclusion) =>
      ConfirmFollows(m, id, inclusion);
      FollowsDetached(m, TxConfirmed(m, id, inclusion).value, j);
    case Sync(status, prev) => SyncDetached(m, status, prev, j);
    case Reset(l1Origin) => assert Detached(Clear(m, l1Origin), j) by { ClearDetached(m, l1Origin, j); }
  }

  lemma LoadDetached(m: Mgr, b: C.Block, j: nat)
    requires Detached(m, j)
    ensures AddL2Block(m, b).Some? ==> Detached(AddL2Block(m, b).value, j)
  {
  }

  lemma ClearDetached(m: Mgr, l1Origin: nat, j: nat)
    requires Detached(m, j)
    ensures Detached(Clear(m, l1Origin), j)
  {
  }

  lemma {:induction false} RunDetached(m: Mgr, ops: seq<R.Op>, j: nat)
    requires Linked(m) && Inv(m) && R.LegalRun(m, ops) && Detached(m, j)
    ensures R.Run(m, ops).Some? && Inv(R.Run(m, ops).value) && Detached(R.Run(m, ops).value, j)
    decreases |ops|
  {
    hide Inv, Detached, R.Legal, R.Step, Linked;
    if ops != [] {
      R.StepInv(m, ops[0]);
      StepDetached(m, ops[0], j);
      RunDetached(R.Step(m, ops[0]).value, ops[1..], j);
    }
  }

  /** Transaction ids name their channel, so those of a detached channel are unknown. */
  lemma DetachedUnknown(m: Mgr, j: nat, id: C.TxId)
    requires Linked(m) && Inv(m) && Detached(m, j) && |id| > 0 && id[0].ch == j
    ensures id !in m.txs
  {
    hide C.Inv, BlocksInv, QueueInv, LatestInv, Settled, Held;
    if id in m.txs {
      assert Awaits(m.channels, m.txs[id], id);
      PendingNamesChannel(m.channels, m.txs[id], id);
    }
  }

  lemma DroppedIsDetached(m: Mgr, k: nat, j: nat)
    requires Linked(m) && QueueInv(m.queue, m.current) && k in m.queue && Invalidate(m, k).Some?
    requires IndexOf(m.queue, k) <= j < |m.queue|
    ensures Detached(Invalidate(m, k).value, m.queue[j])
  {
    var i := IndexOf(m.queue, k);
    assert m.queue[j] in m.queue[i..] by { assert m.queue[j] == m.queue[i..][j - i]; }
  }

  /** Neither a failure nor a confirmation of the transaction changes anything. */
  ghost predicate Ignores(m: Mgr, id: C.TxId) {
    Linked(m) && TxFailed(m, id) == Some(m) && forall inclusion :: TxConfirmed(m, id, inclusion) == Some(m)
  }

  /** However long after an invalidation, in every run, a receipt for a transaction of any dropped channel leaves the
      manager as it is. */
  lemma LateReceiptsIgnored(m: Mgr, k: nat, m1: Mgr, j: nat, id: C.TxId, ops: seq<R.Op>)
    requires Linked(m) && Linked(m1) && k in m.queue && k in m.channels && Invalidate(m, k) == Some(m1)
    requires IndexOf(m.queue, k) <= j < |m.queue| && id in m.channels[m.queue[j]].pending
    requires R.LegalRun(m1, ops) && Inv(m) && CanInvalidate(m, k)
    ensures R.Run(m1, ops).Some? && Ignores(R.Run(m1, ops).value, id)
  {
    hide C.Inv, BlocksInv, TxsInv, LatestInv, Settled, Held, Invalidate, CanInvalidate, Detached, AllBlocks,
      R.LegalRun, R.Run, C.TxFailed, C.TxConfirmed, Linked;
    InvalidateConserves(m, k);
    DroppedIsDetached(m, k, j);
    RunDetached(m1, ops, m.queue[j]);
    assert Awaits(m.channels, m.queue[j], id);
    IdNamesChannel(m, m.queue[j], id);
    DetachedUnknown(R.Run(m1, ops).value, m.queue[j], id);
  }

  lemma IdNamesChannel(m: Mgr, k: nat, id: C.TxId)
    requires Linked(m) && Inv(m) && Awaits(m.channels, k, id)
    ensures |id| > 0 && id[0].ch == k
  {
    hide C.Inv, BlocksInv, QueueInv, TxsInv, LatestInv, Settled, Held;
    PendingNamesChannel(m.channels, k, id);
  }

  // ----- Confirmations for pruned channels -----

  /** Block `n` lies before everything the manager has or will load; `heights` tells the number of each block hash. */
  ghost predicate Below(n: nat, blocks: seq<C.Block>, tip: nat, heights: nat -> nat) {
    if blocks != [] then n < blocks[0].number else tip != 0 && n <= heights(tip)
  }

  /** A channel that left the queue and still awaits a receipt was pruned, so its first block is gone. */
  ghost predicate Passed(m: Mgr, heights: nat -> nat) {
    && (forall i :: 0 <= i < |m.blocks| ==> heights(m.blocks[i].hash) == m.blocks[i].number)
    && forall id :: id in m.txs && m.txs[id] !in m.queue ==> ChannelPassed(m, m.txs[id], heights)
  }

  ghost predicate ChannelPassed(m: Mgr, k: nat, heights: nat -> nat) {
    k in m.channels && m.channels[k].blocks != [] ==> Below(m.channels[k].blocks[0].number, m.blocks, m.tip, heights)
  }

  /** A loaded block has its hash's number, one more than its parent's. */
  ghost predicate Consistent(op: R.Op, heights: nat -> nat) {
    op.Load? ==> heights(op.block.hash) == op.block.number == heights(op.block.parent) + 1
  }

  lemma FollowsPassed(m: Mgr, m': Mgr, heights: nat -> nat)
    requires Linked(m) && Follows(m, m') && Passed(m, heights)
    ensures Passed(m', heights)
  {
    forall id | id in m'.txs && m'.txs[id] !in m'.queue ensures ChannelPassed(m', m'.txs[id], heights) {
      assert ChannelPassed(m, m.txs[id], heights);
    }
  }

  lemma LoadPassed(m: Mgr, b: C.Block, heights: nat -> nat)
    requires Linked(m) && Passed(m, heights) && Consistent(R.Load(b), heights) && AddL2Block(m, b).Some?
    ensures Passed(AddL2Block(m, b).value, heights)
  {
    var m' := AddL2Block(m, b).value;
    forall id | id in m'.txs && m'.txs[id] !in m'.queue ensures ChannelPassed(m', m'.txs[id], heights) {
      assert ChannelPassed(m, m.txs[id], heights);
    }
  }

  /** The first block of a channel that is pruned is safe. */
  lemma PrunedFirstSafe(m: Mgr, n: nat, safe: nat, i: nat)
    requires Shape(m) && n == SafePrefix(QueuedChannels(m), safe) && i < n && m.channels[m.queue[i]].blocks != []
    ensures m.channels[m.queue[i]].blocks[0].number <= safe
  {
    hide C.Inv, Held, Chain, SafePrefix, LatestInv;
    var q := m.queue[..n];
    var gone, rest := Held(m.channels, q), Held(m.channels, m.queue[n..]) + From(m.blocks, m.blockCursor);
    PrefixHeldSafe(m, n, safe);
    HeldSplit(m.channels, m.queue, n);
    assert gone + rest == Held(m.channels, m.queue) + From(m.blocks, m.blockCursor);
    LastIsLargest(gone, rest, safe + 1);
    ChannelBlockHeld(m.channels, q, i, m.channels[m.queue[i]].blocks[0]);
    var j :| 0 <= j < |gone| && gone[j] == m.channels[m.queue[i]].blocks[0];
    assert (gone + rest)[j] == gone[j];
  }

  /** What pruning leaves: blocks from the first unsafe one on, or nothing and a tip at the safe head. */
  lemma PrunedBelow(m: Mgr, num: nat, safe: nat, heights: nat -> nat, n: nat)
    requires Shape(m) && m.blocks != [] && num <= |m.blocks| && m.blocks[0].number + num == safe + 1
    requires forall i :: 0 <= i < |m.blocks| ==> heights(m.blocks[i].hash) == m.blocks[i].number
    requires n <= safe
    ensures Below(n, m.blocks[num..], m.tip, heights)
  {
    hide C.Inv, Held, LatestInv, QueueInv;
    var all := AllBlocks(m);
    var off := |all| - |m.blocks|;
    assert m.blocks == all[off..];
    if num < |m.blocks| {
      assert m.blocks[num] == all[off + num] && m.blocks[0] == all[off];
      ChainNumber(all, off + num);
      ChainNumber(all, off);
    } else {
      var last := |m.blocks| - 1;
      assert m.blocks[last] == all[off + last] && m.blocks[0] == all[off];
      ChainNumber(all, off + last);
      ChainNumber(all, off);
    }
  }

  lemma SyncPassed(m: Mgr, s: SyncStatus, prev: nat, heights: nat -> nat)
    requires Linked(m) && Inv(m) && Passed(m, heights) && SyncAndPrune(m, s, prev).0.Some?
    ensures Passed(SyncAndPrune(m, s, prev).0.value, heights)
  {
    hide C.Inv, Held, Chain, BlocksInv, TxsInv, LatestInv, ChannelsInv, Settled, SafePrefix, QueuedChannels,
      AnyStalled, Below;
    var (a, outOfSync) := Compute(s, prev, m.blocks, QueuedChannels(m));
    var m' := SyncAndPrune(m, s, prev).0.value;
    if !outOfSync && a.clearState.None? && m.blocks == [] {
      assert m.blocks[0..] == m.blocks && m.queue[0..] == m.queue;
      forall id | id in m'.txs && m'.txs[id] !in m'.queue ensures ChannelPassed(m', m'.txs[id], heights) {
        assert ChannelPassed(m, m.txs[id], heights);
      }
    } else if !outOfSync && a.clearState.None? {
      var num, n := a.blocksToPrune, a.channelsToPrune;
      assert m'.blocks == m.blocks[num..] && m'.queue == m.queue[n..] && m'.txs == m.txs && m'.tip == m.tip;
      forall id | id in m'.txs && m'.txs[id] !in m'.queue ensures ChannelPassed(m', m'.txs[id], heights) {
        PruneChannelPassed(m, num, n, s.safeL2.number, m.txs[id], heights);
      }
    }
  }

  lemma FoundBefore(q: seq<nat>, n: nat, k: nat) returns (i: nat)
    requires n <= |q| && k in q && k !in q[n..]
    ensures i < n && q[i] == k
  {
    assert q == q[..n] + q[n..];
    i :| 0 <= i < n && q[..n][i] == k;
  }

  lemma PruneChannelPassed(m: Mgr, num: nat, n: nat, safe: nat, k: nat, heights: nat -> nat)
    requires Shape(m) && m.blocks != [] && num <= |m.blocks| && m.blocks[0].number + num == safe + 1
    requires forall i :: 0 <= i < |m.blocks| ==> heights(m.blocks[i].hash) == m.blocks[i].number
    requires n == SafePrefix(QueuedChannels(m), safe) && k in m.channels && k !in m.queue[n..]
    requires k !in m.queue ==> ChannelPassed(m, k, heights)
    ensures m.channels[k].blocks != [] ==> Below(m.channels[k].blocks[0].number, m.blocks[num..], m.tip, heights)
  {
    hide Held, Chain, BlocksInv, LatestInv, SafePrefix;
    if m.channels[k].blocks != [] {
      if k in m.queue {
        var i := FoundBefore(m.queue, n, k);
        PrunedFirstSafe(m, n, safe, i);
      }
      PrunedBelow(m, num, safe, heights, m.channels[k].blocks[0].number);
    }
  }

  lemma StepPassed(m: Mgr, op: R.Op, heights: nat -> nat)
    requires Linked(m) && Inv(m) && R.Legal(m, op) && Passed(m, heights) && Consistent(op, heights)
    ensures R.Step(m, op).Some? && Passed(R.Step(m, op).value, heights)
  {
    hide Follows, Inv, Passed, TxData, TxConfirmed, TxFailed, SyncAndPrune, R.Legal, Linked;
    R.StepInv(m, op);
    match op
    case Load(b) => if AddL2Block(m, b).Some? { LoadPassed(m, b, heights); }
    case Publish(l1Head, pi, newCfg, env, retryEnv) =>
      PublishFollows(m, l1Head, pi, newCfg, env, retryEnv);
      FollowsPassed(m, TxData(m, l1Head, pi, newCfg, env, retryEnv).0, heights);
    case Fail(id) =>
      FailFollows(m, id);
      FollowsPassed(m, TxFailed(m, id).value, heights);
    case Confirm(id, inclusion) =>
      ConfirmFollows(m, id, inclusion);
      FollowsPassed(m, TxConfirmed(m, id, inclusion).value, heights);
    case Sync(status, prev) => SyncPassed(m, status, prev, heights);
    case Reset(l1Origin) => assert Passed(Clear(m, l1Origin), heights) by { ClearPassed(m, l1Origin, heights); }
  }

  lemma ClearPassed(m: Mgr, l1Origin: nat, heights: nat -> nat)
    ensures Passed(Clear(m, l1Origin), heights)
  {
  }

  lemma {:induction false} RunPassed(m: Mgr, ops: seq<R.Op>, heights: nat -> nat)
    requires Linked(m) && Inv(m) && R.LegalRun(m, ops) && Passed(m, heights)
    requires forall i :: 0 <= i < |ops| ==> Consistent(ops[i], heights)
    ensures R.Run(m, ops).Some? && Inv(R.Run(m, ops).value) && Passed(R.Run(m, ops).value, heights)
    decreases |ops|
  {
    hide Inv, Passed, R.Legal, R.Step, Linked, Consistent;
    if ops != [] {
      R.StepInv(m, ops[0]);
      StepPassed(m, ops[0], heights);
      RunPassed(R.Step(m, ops[0]).value, ops[1..], heights);
    }
  }

  /** The rewind to a block before the queue always panics. */
  lemma RewindBelow(m: Mgr, k: nat, heights: nat -> nat)
    requires Linked(m) && Shape(m) && k in m.channels && m.channels[k].blocks != [] && ChannelPassed(m, k, heights)
    ensures Invalidate(m, k).None?
  {
    hide C.Inv, Held, LatestInv, QueueInv, Chain, BlocksInv;
    if m.blocks != [] {
      LastFits(m);
      WrapOf(m.channels[k].blocks[0].number - m.blocks[0].number);
    }
  }

  lemma LastFits(m: Mgr)
    requires Shape(m) && m.blocks != []
    ensures m.blocks[0].number + |m.blocks| <= MAX_UINT64 + 1
  {
    hide C.Inv, Held, LatestInv, QueueInv;
    var all := AllBlocks(m);
    var off := |all| - |m.blocks|;
    assert m.blocks == all[off..];
    ChainNumber(all, off + |m.blocks| - 1);
    ChainNumber(all, off);
  }

  /** When a confirmation panics, in every state a run can reach: iff it times out a channel with blocks that has left
      the queue, or a queued one whose first block has been pruned. */
  lemma ConfirmPanics(m: Mgr, id: C.TxId, inclusion: nat, heights: nat -> nat)
    requires Linked(m) && Inv(m) && Passed(m, heights) && inclusion <= MAX_UINT64
    ensures TxConfirmed(m, id, inclusion).None? <==>
      && TimesOut(m, id, inclusion) && m.channels[m.txs[id]].blocks != []
      && (m.txs[id] in m.queue ==> FirstBlockPruned(m, m.txs[id]))
  {
    hide C.Inv, BlocksInv, QueueInv, TxsInv, LatestInv, ChannelsInv, Settled, Held, Invalidate, AllBlocks;
    if TimesOut(m, id, inclusion) {
      var k, m1 := m.txs[id], RecordConfirmed(m, id, inclusion);
      RecordConfirmedInv(m, id, inclusion);
      if m1.channels[k].blocks == [] {
        R.InvalidateEmpty(m1, k);
      } else if k in m.queue {
        InvalidateNonEmpty(m1, k);
      } else {
        assert ChannelPassed(m, k, heights);
        RewindBelow(m1, k, heights);
      }
    }
  }
}
