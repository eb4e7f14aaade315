/** Whole runs of the channel manager: no interleaving of loading, publishing, receipts, pruning and
    clearing loses, doubles or reorders a block or a frame. */
module ManagerRuns {
  import opened Prelude
  import opened Manager
  import opened ManagerInv
  import opened ManagerBuild
  import opened ManagerInvalidate
  import opened SyncActions
  import C = Channels

  // ----- TxData -----

  /** The DA type is switched: nothing of the first ready channel was submitted, and the provider now
      prefers the other type. */
  ghost predicate SwitchesDA(m: Mgr, l1Head: nat, pi: PubInfo, newCfg: C.Config, env: Env)
    requires Linked(m)
  {
    var (m1, r) := GetReadyChannel(m, l1Head, pi, env);
    r.Got? && Switches(m1, r.id, newCfg)
  }

  /** TxData panics iff publishing is forced without a current channel, or the DA type switches while
      publishing is forced, or it switches and the channel's first block was pruned. */
  lemma TxDataPanics(m: Mgr, l1Head: nat, pi: PubInfo, newCfg: C.Config, env: Env, retryEnv: Env)
    requires Inv(m) && EnvFits(m, env)
    ensures TxData(m, l1Head, pi, newCfg, env, retryEnv).1 == Panic <==>
      || (pi.forcePublish && m.current.None?)
      || (SwitchesDA(m, l1Head, pi, newCfg, env)
          && (pi.forcePublish
              || FirstBlockPruned(GetReadyChannel(m, l1Head, pi, env).0, GetReadyChannel(m, l1Head, pi, env).1.id)))
  {
    hide C.Inv, BlocksInv, QueueInv, TxsInv, LatestInv, ChannelsInv, Chain, Held, AllBlocks, GetReadyChannel,
      C.NextTxData, RequeueAndRetry, Settled;
    GetReadyChannelInv(m, l1Head, pi, env);
    var (m1, r) := GetReadyChannel(m, l1Head, pi, env);
    if r.Got? && Switches(m1, r.id, newCfg) { RetryPanics(m1, r.id, l1Head, pi, newCfg, retryEnv); }
  }

  lemma RetryPanics(m: Mgr, k: nat, l1Head: nat, pi: PubInfo, newCfg: C.Config, env: Env)
    requires Shape(m) && k in m.queue
    ensures RequeueAndRetry(m, k, l1Head, pi, newCfg, env).1 == Panic <==> pi.forcePublish || FirstBlockPruned(m, k)
  {
    hide BlocksInv, QueueInv, LatestInv, Chain, Held, FillCurrent, FirstWithTxData, C.NextTxData, Invalidate;
    if m.channels[k].blocks != [] { InvalidateNonEmpty(m, k); } else { InvalidateEmpty(m, k); }
    if Invalidate(m, k).Some? { FillNeverCrashes(Invalidate(m, k).value.(cfg := newCfg), l1Head, pi, env); }
  }

  lemma InvalidateEmpty(m: Mgr, k: nat)
    requires Linked(m) && k in m.channels && m.channels[k].blocks == []
    ensures Invalidate(m, k).Some? && Invalidate(m, k).value.current.None?
  {
  }

  lemma FillNeverCrashes(m: Mgr, l1Head: nat, pi: PubInfo, env: Env)
    requires Linked(m)
    ensures FillCurrent(m, l1Head, pi, env).1 != Crashed
  {
    hide EnsureChannelWithSpace, ProcessBlocks, RegisterL1Block, OutputFrames;
  }

  /** Drawing a transaction, with or without a DA switch, leaves the blocks to deliver as they were. */
  lemma TxDataInv(m: Mgr, l1Head: nat, pi: PubInfo, newCfg: C.Config, env: Env, retryEnv: Env)
    requires Inv(m) && EnvFits(m, env) && newCfg.Checked()
    requires SwitchesDA(m, l1Head, pi, newCfg, env) ==>
      var (m1, r) := GetReadyChannel(m, l1Head, pi, env);
      CanInvalidate(m1, r.id) && EnvFits(m1, retryEnv)
    ensures var m' := TxData(m, l1Head, pi, newCfg, env, retryEnv).0; Inv(m') && AllBlocks(m') == AllBlocks(m)
  {
    hide C.Inv, BlocksInv, QueueInv, TxsInv, LatestInv, ChannelsInv, Chain, Held, AllBlocks, GetReadyChannel,
      NextTxData, CanInvalidate, Invalidate;
    GetReadyChannelInv(m, l1Head, pi, env);
    var (m1, r) := GetReadyChannel(m, l1Head, pi, env);
    if r.Got? && !Switches(m1, r.id, newCfg) {
      DrawInv(m1, r.id);
    } else if r.Got? {
      assert SwitchesDA(m, l1Head, pi, newCfg, env);
      InvalidateConserves(m1, r.id);
      var m2 := Invalidate(m1, r.id).value;
      ChangeCfg(m2, newCfg);
      assert m2.current.None? by { InvalidateClearsCurrent(m1, r.id); }
      GetReadyChannelInv(m2.(cfg := newCfg), l1Head, pi, retryEnv);
      var (m3, r3) := GetReadyChannel(m2.(cfg := newCfg), l1Head, pi, retryEnv);
      if r3.Got? { DrawInv(m3, r3.id); }
    }
  }

  lemma InvalidateClearsCurrent(m: Mgr, k: nat)
    requires Linked(m) && k in m.channels && Invalidate(m, k).Some?
    ensures Invalidate(m, k).value.current.None?
  {
  }

  lemma ChangeCfg(m: Mgr, newCfg: C.Config)
    requires Inv(m) && newCfg.Checked()
    ensures Inv(m.(cfg := newCfg)) && AllBlocks(m.(cfg := newCfg)) == AllBlocks(m)
  {
    hide C.Inv, BlocksInv, QueueInv, TxsInv, LatestInv, ChannelsInv, Chain, Held;
  }

  // ----- Loading and confirming -----

  lemma AddL2BlockInv(m: Mgr, b: C.Block)
    requires Inv(m) && b.hash != 0 && b.number <= MAX_UINT64 && AddL2Block(m, b).Some?
    requires m.blocks != [] && b.parent == m.blocks[|m.blocks| - 1].hash ==> b.number == LastNumber(m.blocks) + 1
    ensures Inv(AddL2Block(m, b).value) && AllBlocks(AddL2Block(m, b).value) == AllBlocks(m) + [b]
  {
    hide C.Inv, QueueInv, TxsInv, LatestInv, ChannelsInv, Held, BlocksInv, From, Chain;
    LoadBlock(m.blocks, m.blockCursor, m.tip, Held(m.channels, m.queue), b);
  }

  lemma LoadBlock(blocks: seq<C.Block>, cursor: nat, tip: nat, held: seq<C.Block>, b: C.Block)
    requires BlocksInv(blocks, cursor, tip, held) && b.hash != 0 && b.number <= MAX_UINT64
    requires tip == 0 || tip == b.parent
    requires blocks != [] && b.parent == blocks[|blocks| - 1].hash ==> b.number == LastNumber(blocks) + 1
    ensures BlocksInv(blocks + [b], cursor, b.hash, held)
    ensures held + From(blocks + [b], cursor) == held + From(blocks, cursor) + [b]
  {
    var all := held + From(blocks, cursor);
    assert From(blocks + [b], cursor) == From(blocks, cursor) + [b];
    assert held + From(blocks + [b], cursor) == all + [b];
    if blocks != [] { assert all[|all| - 1] == blocks[|blocks| - 1]; }
    ChainPush(all, b);
    assert blocks + [b] == (all + [b])[|all| - |blocks|..];
  }

  lemma TxConfirmedInv(m: Mgr, id: C.TxId, inclusion: nat)
    requires Inv(m) && inclusion <= MAX_UINT64
    requires TimesOut(m, id, inclusion) ==> CanInvalidate(RecordConfirmed(m, id, inclusion), m.txs[id])
    ensures TxConfirmed(m, id, inclusion).Some? && Inv(TxConfirmed(m, id, inclusion).value)
    ensures AllBlocks(TxConfirmed(m, id, inclusion).value) == AllBlocks(m)
  {
    hide C.Inv, BlocksInv, QueueInv, TxsInv, LatestInv, ChannelsInv, Chain, Held, AllBlocks, Invalidate,
      RecordConfirmed;
    if id in m.txs {
      RecordConfirmedInv(m, id, inclusion);
      if TimesOut(m, id, inclusion) { InvalidateConserves(RecordConfirmed(m, id, inclusion), m.txs[id]); }
    }
  }

  // ----- Runs -----

  datatype Op =
    | Load(block: C.Block)
    | Publish(l1Head: nat, pi: PubInfo, newCfg: C.Config, env: Env, retryEnv: Env)
    | Fail(id: C.TxId)
    | Confirm(id: C.TxId, inclusion: nat)
    | Sync(status: SyncStatus, prevCurrentL1: nat)
    | Reset(l1Origin: nat)

  /** None is a panic. A block that does not extend the tip is refused and leaves the state as it was. */
  function Step(m: Mgr, op: Op): (r: Option<Mgr>)
    requires Linked(m)
    ensures r.Some? ==> Linked(r.value)
  {
    match op
    case Load(b) => (match AddL2Block(m, b) case None => Some(m) case Some(m1) => Some(m1))
    case Publish(l1Head, pi, newCfg, env, retryEnv) =>
      var (m1, out) := TxData(m, l1Head, pi, newCfg, env, retryEnv);
      if out == Panic then None else Some(m1)
    case Fail(id) => TxFailed(m, id)
    case Confirm(id, inclusion) => TxConfirmed(m, id, inclusion)
    case Sync(status, prev) => SyncAndPrune(m, status, prev).0
    case Reset(l1Origin) => Some(Clear(m, l1Origin))
  }

  /** What is assumed of the outside world, and of the two kinds of invalidation, at each step. */
  ghost predicate Legal(m: Mgr, op: Op)
    requires Linked(m)
  {
    match op
    case Load(b) =>
      && b.hash != 0 && b.number <= MAX_UINT64
      && (m.blocks != [] && b.parent == m.blocks[|m.blocks| - 1].hash ==> b.number == LastNumber(m.blocks) + 1)
    case Publish(l1Head, pi, newCfg, env, retryEnv) =>
      && newCfg.Checked() && EnvFits(m, env)
      && (pi.forcePublish ==> m.current.Some?)
      && (SwitchesDA(m, l1Head, pi, newCfg, env) ==>
            var (m1, r) := GetReadyChannel(m, l1Head, pi, env);
            !pi.forcePublish && CanInvalidate(m1, r.id) && EnvFits(m1, retryEnv))
    case Confirm(id, inclusion) =>
      && inclusion <= MAX_UINT64
      && (TimesOut(m, id, inclusion) ==> CanInvalidate(RecordConfirmed(m, id, inclusion), m.txs[id]))
    case _ => true
  }

  /** The block a step appends to those still to be delivered, if any. */
  function Loaded(m: Mgr, op: Op): seq<C.Block> {
    if op.Load? && AddL2Block(m, op.block).Some? then [op.block] else []
  }

  ghost predicate Restart(m: Mgr, op: Op)
    requires Linked(m)
  {
    op.Reset? || (op.Sync? && Restarts(m, op.status, op.prevCurrentL1))
  }

  /** Blocks numbered below this are safe according to the step. */
  function SafeLimit(op: Op): nat {
    if op.Sync? then op.status.safeL2.number + 1 else 0
  }

  /** One step: no panic, the invariant is kept, and the blocks to deliver only lose safe ones from the
      front and gain the loaded one at the end, unless the state is dropped altogether. */
  lemma StepInv(m: Mgr, op: Op)
    requires Inv(m) && Legal(m, op)
    ensures Step(m, op).Some? && Inv(Step(m, op).value)
    ensures Restart(m, op) ==> AllBlocks(Step(m, op).value) == []
    ensures !Restart(m, op) ==> DropsBelow(AllBlocks(m) + Loaded(m, op), AllBlocks(Step(m, op).value), SafeLimit(op))
  {
    hide C.Inv, BlocksInv, QueueInv, TxsInv, LatestInv, ChannelsInv, Chain, Held, AllBlocks, TxData, GetReadyChannel,
      SwitchesDA, CanInvalidate, TxFailed, TxConfirmed, TimesOut, Restarts, SyncAndPrune, Core, Settled;
    assert AllBlocks(m) + [] == AllBlocks(m);
    match op
    case Load(b) =>
      if AddL2Block(m, b).Some? { AddL2BlockInv(m, b); }
    case Publish(l1Head, pi, newCfg, env, retryEnv) =>
      TxDataInv(m, l1Head, pi, newCfg, env, retryEnv);
      NoPanic(m, l1Head, pi, newCfg, env, retryEnv);
    case Fail(id) => TxFailedInv(m, id);
    case Confirm(id, inclusion) => TxConfirmedInv(m, id, inclusion);
    case Sync(status, prev) => SyncAndPruneInv(m, status, prev);
    case Reset(l1Origin) => ClearInv(m, l1Origin);
  }

  lemma NoPanic(m: Mgr, l1Head: nat, pi: PubInfo, newCfg: C.Config, env: Env, retryEnv: Env)
    requires Inv(m) && Legal(m, Publish(l1Head, pi, newCfg, env, retryEnv))
    ensures TxData(m, l1Head, pi, newCfg, env, retryEnv).1 != Panic
  {
    hide C.Inv, BlocksInv, QueueInv, TxsInv, LatestInv, ChannelsInv, Chain, Held, AllBlocks, TxData, GetReadyChannel,
      Core;
    TxDataPanics(m, l1Head, pi, newCfg, env, retryEnv);
  }

  function Run(m: Mgr, ops: seq<Op>): (r: Option<Mgr>)
    requires Linked(m)
    decreases |ops|
  {
    if ops == [] then Some(m)
    else match Step(m, ops[0]) case None => None case Some(m1) => Run(m1, ops[1..])
  }

  ghost predicate LegalRun(m: Mgr, ops: seq<Op>)
    requires Linked(m)
    decreases |ops|
  {
    ops == [] || (Legal(m, ops[0]) && (Step(m, ops[0]).Some? ==> LegalRun(Step(m, ops[0]).value, ops[1..])))
  }

  ghost predicate NeverRestarts(m: Mgr, ops: seq<Op>)
    requires Linked(m)
    decreases |ops|
  {
    ops == [] || (!Restart(m, ops[0]) && (Step(m, ops[0]).Some? ==> NeverRestarts(Step(m, ops[0]).value, ops[1..])))
  }

  function AllLoaded(m: Mgr, ops: seq<Op>): seq<C.Block>
    requires Linked(m)
    decreases |ops|
  {
    if ops == [] then []
    else Loaded(m, ops[0]) + match Step(m, ops[0]) case None => [] case Some(m1) => AllLoaded(m1, ops[1..])
  }

  function MaxSafeLimit(ops: seq<Op>): nat {
    if ops == [] then 0 else Max(SafeLimit(ops[0]), MaxSafeLimit(ops[1..]))
  }

  /** Every legal run ends without a panic in a good state. */
  lemma {:induction false} RunInv(m: Mgr, ops: seq<Op>)
    requires Inv(m) && LegalRun(m, ops)
    ensures Run(m, ops).Some? && Inv(Run(m, ops).value)
    decreases |ops|
  {
    hide ChannelsInv, BlocksInv, QueueInv, TxsInv, LatestInv, Held, Settled, Legal, Step, AllBlocks, Restart;
    if ops != [] {
      StepInv(m, ops[0]);
      RunInv(Step(m, ops[0]).value, ops[1..]);
    }
  }

  lemma DropsThenAppend(a: seq<C.Block>, b: seq<C.Block>, x: seq<C.Block>, limit: nat)
    requires DropsBelow(a, b, limit)
    ensures DropsBelow(a + x, b + x, limit)
  {
  }

  lemma DropsTwice(a: seq<C.Block>, b: seq<C.Block>, c: seq<C.Block>, l1: nat, l2: nat)
    requires DropsBelow(a, b, l1) && DropsBelow(b, c, l2)
    ensures DropsBelow(a, c, Max(l1, l2))
  {
    forall i | 0 <= i < |a| - |c| ensures a[i].number < Max(l1, l2) {
      if i >= |a| - |b| { assert a[i] == b[i - (|a| - |b|)]; }
    }
  }

  /** Block conservation over whole runs: what is left to deliver is exactly what there was plus every
      block loaded, in order and each once, less a prefix of blocks that a sync status declared safe. */
  lemma {:induction false} RunConservesBlocks(m: Mgr, ops: seq<Op>)
    requires Inv(m) && LegalRun(m, ops) && NeverRestarts(m, ops)
    ensures Run(m, ops).Some?
    ensures DropsBelow(AllBlocks(m) + AllLoaded(m, ops), AllBlocks(Run(m, ops).value), MaxSafeLimit(ops))
    decreases |ops|
  {
    hide ChannelsInv, BlocksInv, QueueInv, TxsInv, LatestInv, Held, Settled, Legal, Step, AllBlocks, DropsBelow,
      Restart, SafeLimit, Loaded, Linked;
    if ops == [] {
      assert AllBlocks(m) + [] == AllBlocks(m);
      DropsNone(AllBlocks(m));
    } else {
      StepInv(m, ops[0]);
      var m1 := Step(m, ops[0]).value;
      var a, x, y := AllBlocks(m), Loaded(m, ops[0]), AllLoaded(m1, ops[1..]);
      RunConservesBlocks(m1, ops[1..]);
      DropsThenAppend(a + x, AllBlocks(m1), y, SafeLimit(ops[0]));
      assert (a + x) + y == a + (x + y);
      DropsTwice(a + x + y, AllBlocks(m1) + y, AllBlocks(Run(m, ops).value), SafeLimit(ops[0]), MaxSafeLimit(ops[1..]));
    }
  }

  lemma DropsNone(a: seq<C.Block>)
    ensures DropsBelow(a, a, 0)
  {
  }

  /** Every queued block is in a channel exactly when it is below the cursor. */
  lemma BlockPlaced(m: Mgr, i: nat)
    requires Inv(m) && i < |m.blocks|
    ensures m.blocks[i] in Held(m.channels, m.queue) <==> i < m.blockCursor
  {
    hide C.Inv, TxsInv, ChannelsInv, LatestInv, QueueInv, Held;
    var held := Held(m.channels, m.queue);
    var all := held + From(m.blocks, m.blockCursor);
    var off := |all| - |m.blocks|;
    assert m.blocks[i] == all[off + i];
    if i < m.blockCursor { assert all[off + i] == held[off + i]; }
    if j :| 0 <= j < |held| && held[j] == m.blocks[i] {
      assert all[j] == held[j] && all[j].number == all[off + i].number;
    }
  }

  /** No block is held twice, by one channel or by two. */
  lemma BlockHeldOnce(m: Mgr, i: nat, j: nat)
    requires Inv(m) && i < j < |AllBlocks(m)|
    ensures AllBlocks(m)[i] != AllBlocks(m)[j]
  {
    hide C.Inv, TxsInv, ChannelsInv, LatestInv, QueueInv, Held;
    ChainNumber(AllBlocks(m), i);
    ChainNumber(AllBlocks(m), j);
  }
}
