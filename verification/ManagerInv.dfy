/** What every operation of the channel manager keeps, and how it moves blocks. */
module ManagerInv {
  import opened Prelude
  import opened Manager
  import C = Channels

  // ----- Block chains -----

  function PrevHash(bs: seq<C.Block>, i: nat): nat
    requires 1 <= i <= |bs|
  {
    bs[i - 1].hash
  }

  /** Consecutive numbers, each block naming its predecessor's hash, hashes nonzero. */
  ghost predicate Chain(bs: seq<C.Block>) {
    && (forall i :: 0 <= i < |bs| ==> bs[i].number == bs[0].number + i && bs[i].hash != 0 && bs[i].number <= MAX_UINT64)
    && (forall i {:trigger PrevHash(bs, i)} :: 1 <= i < |bs| ==> bs[i].parent == PrevHash(bs, i))
  }

  lemma ChainDrop(bs: seq<C.Block>, k: nat)
    requires Chain(bs) && k <= |bs|
    ensures Chain(bs[k..])
  {
    var cs := bs[k..];
    forall i | 0 <= i < |cs| ensures cs[i].number == cs[0].number + i && cs[i].hash != 0 && cs[i].number <= MAX_UINT64 {
      assert cs[i] == bs[k + i];
    }
    forall i | 1 <= i < |cs| ensures cs[i].parent == PrevHash(cs, i) {
      assert PrevHash(cs, i) == PrevHash(bs, k + i);
    }
  }

  lemma ChainNumber(bs: seq<C.Block>, i: nat)
    requires Chain(bs) && i < |bs|
    ensures bs[i].number == bs[0].number + i <= MAX_UINT64
  {
  }

  lemma ChainPush(bs: seq<C.Block>, b: C.Block)
    requires Chain(bs) && b.hash != 0 && b.number <= MAX_UINT64
    requires bs != [] ==> b.parent == bs[|bs| - 1].hash && b.number == bs[|bs| - 1].number + 1
    ensures Chain(bs + [b])
  {
    var cs := bs + [b];
    forall i | 1 <= i < |cs| ensures cs[i].parent == PrevHash(cs, i) {
      if i < |bs| { assert PrevHash(cs, i) == PrevHash(bs, i); }
    }
  }

  lemma CurrentId(m: Mgr)
    requires Linked(m) && m.current.Some?
    ensures m.current == Some(Current(m).id)
  {
  }

  // ----- The blocks held by the queued channels, in queue order -----

  function BlocksOf(channels: map<nat, C.Channel>, k: nat): seq<C.Block> {
    if k in channels then channels[k].blocks else []
  }

  function Held(channels: map<nat, C.Channel>, queue: seq<nat>): seq<C.Block> {
    if queue == [] then [] else Held(channels, queue[..|queue| - 1]) + BlocksOf(channels, queue[|queue| - 1])
  }

  /** Every block the manager still has to deliver: those in queued channels, then those not yet in one. */
  function AllBlocks(m: Mgr): seq<C.Block> {
    Held(m.channels, m.queue) + From(m.blocks, m.blockCursor)
  }

  lemma HeldNil(channels: map<nat, C.Channel>)
    ensures Held(channels, []) == []
  {
  }

  lemma {:induction false} HeldSame(channels: map<nat, C.Channel>, channels': map<nat, C.Channel>, queue: seq<nat>)
    requires forall i :: 0 <= i < |queue| ==> BlocksOf(channels', queue[i]) == BlocksOf(channels, queue[i])
    ensures Held(channels', queue) == Held(channels, queue)
  {
    if queue != [] { HeldSame(channels, channels', queue[..|queue| - 1]); }
  }

  lemma {:induction false} HeldConcat(channels: map<nat, C.Channel>, p: seq<nat>, q: seq<nat>)
    ensures Held(channels, p + q) == Held(channels, p) + Held(channels, q)
  {
    if q == [] { assert p + q == p; }
    else {
      var q0 := q[..|q| - 1];
      HeldConcat(channels, p, q0);
      assert (p + q)[..|p + q| - 1] == p + q0 && (p + q)[|p + q| - 1] == q[|q| - 1];
      var h, h0, last := Held(channels, p), Held(channels, q0), BlocksOf(channels, q[|q| - 1]);
      assert (h + h0) + last == h + (h0 + last);
    }
  }

  lemma HeldSplit(channels: map<nat, C.Channel>, queue: seq<nat>, i: nat)
    requires i <= |queue|
    ensures Held(channels, queue) == Held(channels, queue[..i]) + Held(channels, queue[i..])
  {
    assert queue == queue[..i] + queue[i..];
    HeldConcat(channels, queue[..i], queue[i..]);
  }

  lemma HeldHead(channels: map<nat, C.Channel>, queue: seq<nat>)
    requires |queue| > 0
    ensures Held(channels, queue) == BlocksOf(channels, queue[0]) + Held(channels, queue[1..])
  {
    HeldSplit(channels, queue, 1);
    var one := queue[..1];
    assert one == [queue[0]];
    assert one[..0] == [];
  }

  // ----- The invariant -----

  function LastNumber(bs: seq<C.Block>): nat {
    if bs == [] then 0 else bs[|bs| - 1].number
  }

  ghost predicate ChannelsInv(channels: map<nat, C.Channel>) {
    forall k :: k in channels ==> C.Inv(channels[k])
  }

  ghost predicate QueueInv(queue: seq<nat>, current: Option<nat>) {
    && (forall i, j :: 0 <= i < j < |queue| ==> queue[i] != queue[j])
    && (current.Some? ==> |queue| > 0 && current.value == queue[|queue| - 1])
  }

  /** No block is lost, doubled or reordered: the blocks held by queued channels and the unprocessed
      blocks form one chain, and the block queue is its most recent part. */
  ghost predicate BlocksInv(blocks: seq<C.Block>, cursor: nat, tip: nat, held: seq<C.Block>) {
    && cursor <= |blocks|
    && Chain(held + From(blocks, cursor))
    && IsSuffix(blocks, held + From(blocks, cursor))
    && (blocks == [] ==> held == [])
    && (blocks != [] ==> tip == blocks[|blocks| - 1].hash)
  }

  ghost predicate Awaits(channels: map<nat, C.Channel>, k: nat, id: C.TxId) {
    k in channels && id in channels[k].pending
  }

  /** A transaction is indexed exactly when its queued channel awaits it. */
  ghost predicate TxsInv(txs: map<C.TxId, nat>, queue: seq<nat>, channels: map<nat, C.Channel>) {
    && (forall id :: id in txs ==> Awaits(channels, txs[id], id))
    && (forall k, id :: k in queue && Awaits(channels, k, id) ==> id in txs && txs[id] == k)
  }

  ghost predicate LatestInv(queue: seq<nat>, channels: map<nat, C.Channel>) {
    forall k :: k in queue ==> k in channels && channels[k].latestL2 == LastNumber(channels[k].blocks)
  }

  /** Between operations a full channel's channel out is closed. */
  ghost predicate Settled(channels: map<nat, C.Channel>) {
    forall k :: k in channels ==> channels[k].IsFull() ==> channels[k].closed
  }

  /** The part of the invariant that is about the two queues and the blocks in them. */
  ghost predicate Shape(m: Mgr) {
    && Linked(m)
    && QueueInv(m.queue, m.current)
    && BlocksInv(m.blocks, m.blockCursor, m.tip, Held(m.channels, m.queue))
    && LatestInv(m.queue, m.channels)
  }

  ghost predicate Core(m: Mgr) {
    && Shape(m) && m.cfg.Checked()
    && ChannelsInv(m.channels)
    && TxsInv(m.txs, m.queue, m.channels)
  }

  ghost predicate Inv(m: Mgr) {
    Core(m) && Settled(m.channels)
  }

  lemma InitialInv(cfg: C.Config)
    requires cfg.Checked()
    ensures Inv(Initial(cfg)) && AllBlocks(Initial(cfg)) == []
  {
  }

  // ----- Changing one channel -----

  lemma HeldUpdate(channels: map<nat, C.Channel>, k: nat, c: C.Channel, queue: seq<nat>)
    requires k in channels && c.blocks == channels[k].blocks
    ensures Held(channels[k := c], queue) == Held(channels, queue)
  {
    HeldSame(channels, channels[k := c], queue);
  }

  /** Changing a channel without touching its blocks or pending transactions. */
  lemma TouchChannel(m: Mgr, c: C.Channel)
    requires Core(m) && c.id in m.channels && C.Inv(c)
    requires c.blocks == m.channels[c.id].blocks && c.latestL2 == m.channels[c.id].latestL2
    requires c.pending == m.channels[c.id].pending
    ensures Core(SetChannel(m, c)) && AllBlocks(SetChannel(m, c)) == AllBlocks(m)
  {
    hide C.Inv, BlocksInv, QueueInv, Chain, Held;
    HeldUpdate(m.channels, c.id, c, m.queue);
    var channels' := m.channels[c.id := c];
    assert forall k, id :: Awaits(channels', k, id) <==> Awaits(m.channels, k, id);
  }

  lemma PendingNamesChannel(channels: map<nat, C.Channel>, k: nat, id: C.TxId)
    requires ChannelsInv(channels) && Awaits(channels, k, id) && channels[k].id == k
    ensures |id| > 0 && id[0].ch == k
  {
    C.PendingIsGroupId(channels[k], id);
  }

  lemma TxAdded(txs: map<C.TxId, nat>, queue: seq<nat>, channels: map<nat, C.Channel>, k: nat, c: C.Channel, id: C.TxId)
    requires ChannelsInv(channels) && TxsInv(txs, queue, channels)
    requires forall j :: j in channels ==> channels[j].id == j
    requires k in channels && |id| > 0 && id[0].ch == k && c.pending.Keys == channels[k].pending.Keys + {id}
    ensures TxsInv(txs[id := k], queue, channels[k := c])
  {
    hide C.Inv;
    var channels' := channels[k := c];
    forall j, t | j in queue && Awaits(channels', j, t) ensures t in txs[id := k] && txs[id := k][t] == j {
      if j != k { PendingNamesChannel(channels, j, t); }
      assert t != id ==> Awaits(channels, j, t);
    }
    var txs' := txs[id := k];
    forall t | t in txs' ensures Awaits(channels', txs'[t], t) {
      assert t != id ==> Awaits(channels, txs[t], t);
    }
  }

  lemma TxRemoved(txs: map<C.TxId, nat>, queue: seq<nat>, channels: map<nat, C.Channel>, k: nat, c: C.Channel,
                  id: C.TxId)
    requires TxsInv(txs, queue, channels)
    requires k in channels && id in txs && txs[id] == k && c.pending == channels[k].pending - {id}
    ensures TxsInv(txs - {id}, queue, channels[k := c])
  {
    var channels' := channels[k := c];
    forall j, t | j in queue && Awaits(channels', j, t) ensures t in txs - {id} && (txs - {id})[t] == j {
      assert Awaits(channels, j, t);
    }
    forall t | t in txs - {id} ensures Awaits(channels', txs[t], t) {
      assert Awaits(channels, txs[t], t);
    }
  }

  /** A channel update that keeps its blocks, with a matching update of the transaction index. */
  lemma TouchChannelAndTxs(m: Mgr, c: C.Channel, txs: map<C.TxId, nat>, lastL1: nat)
    requires Core(m) && c.id in m.channels && C.Inv(c)
    requires c.blocks == m.channels[c.id].blocks && c.latestL2 == m.channels[c.id].latestL2
    requires TxsInv(txs, m.queue, m.channels[c.id := c])
    ensures var m' := m.(channels := m.channels[c.id := c], txs := txs, lastL1 := lastL1);
      Core(m') && AllBlocks(m') == AllBlocks(m)
  {
    hide C.Inv, BlocksInv, QueueInv, Chain, Held;
    HeldUpdate(m.channels, c.id, c, m.queue);
    assert forall id :: id in txs ==> Awaits(m.channels[c.id := c], txs[id], id);
  }

  lemma DrawInv(m: Mgr, k: nat)
    requires Inv(m) && k in m.channels && m.channels[k].HasTxData()
    ensures Inv(NextTxData(m, k).0) && AllBlocks(NextTxData(m, k).0) == AllBlocks(m)
    ensures NextTxData(m, k).1.Tx?
  {
    hide C.Inv, BlocksInv, QueueInv, TxsInv, LatestInv, Chain, Held, AllBlocks;
    var c := m.channels[k];
    C.NextTxDataInv(c);
    C.NextTxDataGroup(c);
    var (c1, tx) := C.NextTxData(c);
    var id := C.IdOf(tx);
    assert id[0] == tx[0].id;
    TxAdded(m.txs, m.queue, m.channels, k, c1, id);
    TouchChannelAndTxs(m, c1, m.txs[id := k], Max(m.lastL1, c.latestL1));
  }

  lemma TxFailedInv(m: Mgr, id: C.TxId)
    requires Inv(m)
    ensures TxFailed(m, id).Some? && Inv(TxFailed(m, id).value)
    ensures AllBlocks(TxFailed(m, id).value) == AllBlocks(m)
  {
    hide C.Inv, BlocksInv, QueueInv, LatestInv, Chain, Held, AllBlocks;
    if id in m.txs {
      var k := m.txs[id];
      assert Awaits(m.channels, k, id);
      C.TxFailedInv(m.channels[k], id);
      C.TxFailedNoPanic(m.channels[k], id);
      var c := C.TxFailed(m.channels[k], id).value;
      TxRemoved(m.txs, m.queue, m.channels, k, c, id);
      TouchChannelAndTxs(m, c, m.txs - {id}, m.lastL1);
    }
  }

  lemma RecordConfirmedInv(m: Mgr, id: C.TxId, inclusion: nat)
    requires Inv(m) && id in m.txs && inclusion <= MAX_UINT64
    ensures Inv(RecordConfirmed(m, id, inclusion)) && AllBlocks(RecordConfirmed(m, id, inclusion)) == AllBlocks(m)
  {
    hide C.Inv, BlocksInv, QueueInv, LatestInv, Chain, Held, AllBlocks;
    var k := m.txs[id];
    assert Awaits(m.channels, k, id);
    C.TxConfirmedInv(m.channels[k], id, inclusion);
    var c := C.TxConfirmed(m.channels[k], id, inclusion);
    TxRemoved(m.txs, m.queue, m.channels, k, c, id);
    TouchChannelAndTxs(m, c, m.txs - {id}, m.lastL1);
  }
}
