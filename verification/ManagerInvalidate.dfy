/** Invalidating a channel: where the block cursor lands, when the code panics, and when blocks are kept. */
module ManagerInvalidate {
  import opened Prelude
  import opened Manager
  import opened ManagerInv
  import C = Channels

  ghost predicate FirstBlockPruned(m: Mgr, k: nat) {
    && k in m.channels && m.channels[k].blocks != []
    && (m.blocks == [] || m.blocks[0].number > m.channels[k].blocks[0].number)
  }

  /** What a caller can check before invalidating queued channel `k`: either its first block has not been
      pruned, or neither it nor any newer channel holds a block. */
  ghost predicate CanInvalidate(m: Mgr, k: nat) {
    && k in m.queue && k in m.channels
    && if m.channels[k].blocks != []
       then !FirstBlockPruned(m, k)
       else Held(m.channels, m.queue[IndexOf(m.queue, k)..]) == []
  }

  /** Distances in block numbers are distances in the chain. */
  lemma NumberDistance(blocks: seq<C.Block>, cursor: nat, tip: nat, before: seq<C.Block>, rest: seq<C.Block>)
    requires BlocksInv(blocks, cursor, tip, before + rest) && rest != []
    ensures blocks != []
    ensures rest[0].number - blocks[0].number == cursor - |rest|
    ensures blocks[0].number + |blocks| <= MAX_UINT64 + 1 && rest[0].number <= MAX_UINT64
  {
    hide Chain;
    var all := before + rest + From(blocks, cursor);
    var off := |all| - |blocks|;
    assert all[|before|] == rest[0] && all[off] == blocks[0];
    ChainNumber(all, |before|);
    ChainNumber(all, off);
    ChainNumber(all, |all| - 1);
  }

  /** The subtraction index of a block held by a channel. With uint64 wrap-around it is below the cursor and
      points at that very block iff the block is not older than the oldest one kept. */
  lemma RewindIndex(blocks: seq<C.Block>, cursor: nat, tip: nat, before: seq<C.Block>, rest: seq<C.Block>)
    requires BlocksInv(blocks, cursor, tip, before + rest) && rest != []
    ensures blocks != []
    ensures blocks[0].number > rest[0].number ==> Wrap64(rest[0].number - blocks[0].number) >= |blocks|
    ensures blocks[0].number <= rest[0].number ==>
      var idx := Wrap64(rest[0].number - blocks[0].number);
      idx < cursor && blocks[idx] == rest[0] && From(blocks, idx) == rest + From(blocks, cursor)
  {
    hide Chain, Wrap64;
    NumberDistance(blocks, cursor, tip, before, rest);
    WrapOf(rest[0].number - blocks[0].number);
    if blocks[0].number <= rest[0].number {
      SuffixStepBack(blocks, before, rest, blocks[cursor..]);
      assert blocks[cursor - |rest|] == blocks[cursor - |rest|..][0];
    }
  }

  lemma QueueSplit(m: Mgr, k: nat)
    requires Shape(m) && k in m.queue
    ensures var i := IndexOf(m.queue, k);
      && i < |m.queue| && m.queue[i] == k
      && Held(m.channels, m.queue) == Held(m.channels, m.queue[..i]) + Held(m.channels, m.queue[i..])
      && Held(m.channels, m.queue[i..]) == m.channels[k].blocks + Held(m.channels, m.queue[i + 1..])
  {
    hide C.Inv, BlocksInv, TxsInv, LatestInv, Chain, Held;
    var i := IndexOf(m.queue, k);
    HeldSplit(m.channels, m.queue, i);
    HeldHead(m.channels, m.queue[i..]);
    assert m.queue[i..][1..] == m.queue[i + 1..];
  }

  /** Invalidating a queued, non-empty channel panics iff its first block was pruned. Otherwise the cursor
      lands on that block and exactly the strictly older channels remain. */
  lemma InvalidateNonEmpty(m: Mgr, k: nat)
    requires Shape(m) && k in m.queue && m.channels[k].blocks != []
    ensures Invalidate(m, k).Some? <==> !FirstBlockPruned(m, k)
    ensures Invalidate(m, k).Some? ==>
      var m' := Invalidate(m, k).value;
      && m'.blockCursor < m.blockCursor && m'.blocks == m.blocks && m'.tip == m.tip
      && m'.blocks[m'.blockCursor] == m.channels[k].blocks[0]
      && m'.queue == m.queue[..IndexOf(m.queue, k)] && m'.current == None
      && AllBlocks(m') == AllBlocks(m)
  {
    hide C.Inv, TxsInv, LatestInv, Chain, Held, BlocksInv, From;
    QueueSplit(m, k);
    var i := IndexOf(m.queue, k);
    CursorOk(m);
    var older, rest := Held(m.channels, m.queue[..i]), Held(m.channels, m.queue[i..]);
    RewindIndex(m.blocks, m.blockCursor, m.tip, older, rest);
    var unprocessed := From(m.blocks, m.blockCursor);
    assert older + (rest + unprocessed) == (older + rest) + unprocessed;
  }

  lemma CursorOk(m: Mgr)
    requires Shape(m)
    ensures m.blockCursor <= |m.blocks|
  {
  }

  /** Keeping the older channels and the same blocks to deliver keeps the invariant. */
  lemma TrimInv(m: Mgr, i: nat, cursor: nat)
    requires Core(m) && i <= |m.queue| && cursor <= |m.blocks|
    requires Held(m.channels, m.queue[..i]) + From(m.blocks, cursor) == AllBlocks(m)
    ensures Core(Trim(m.(blockCursor := cursor), i))
  {
    hide C.Inv, Chain, Held, TxsInv;
    var m' := Trim(m.(blockCursor := cursor), i);
    if m.blocks == [] { assert Held(m.channels, m.queue[..i]) == [] by { assert |AllBlocks(m)| == 0; } }
    assert TxsInv(m'.txs, m'.queue, m'.channels) by { TrimTxs(m, i); }
  }

  lemma TrimTxs(m: Mgr, i: nat)
    requires QueueInv(m.queue, m.current) && TxsInv(m.txs, m.queue, m.channels) && i <= |m.queue|
    ensures TxsInv(Trim(m, i).txs, m.queue[..i], m.channels)
  {
    var txs' := Trim(m, i).txs;
    forall k, id | k in m.queue[..i] && Awaits(m.channels, k, id) ensures id in txs' && txs'[id] == k {
      assert id in m.txs && m.txs[id] == k;
      assert k !in m.queue[i..];
    }
  }

  /** Invalidating a queued channel neither panics nor loses, doubles or reorders a block iff CanInvalidate. */
  lemma InvalidateConserves(m: Mgr, k: nat)
    requires Inv(m) && k in m.queue
    ensures (Invalidate(m, k).Some? && AllBlocks(Invalidate(m, k).value) == AllBlocks(m)) <==> CanInvalidate(m, k)
    ensures CanInvalidate(m, k) ==> Inv(Invalidate(m, k).value)
  {
    hide C.Inv, TxsInv, LatestInv, Chain, Held, BlocksInv, QueueInv, ChannelsInv;
    var i := IndexOf(m.queue, k);
    QueueSplit(m, k);
    CursorOk(m);
    if m.channels[k].blocks != [] {
      InvalidateNonEmpty(m, k);
      if Invalidate(m, k).Some? {
        TrimInv(m, i, Invalidate(m, k).value.blockCursor);
      }
    } else {
      assert Invalidate(m, k) == Some(Trim(m, i));
      var older, newer := Held(m.channels, m.queue[..i]), Held(m.channels, m.queue[i..]);
      var rest := m.blocks[m.blockCursor..];
      if newer == [] {
        assert older + newer == older;
        TrimInv(m, i, m.blockCursor);
      } else {
        assert |older + rest| < |(older + newer) + rest|;
      }
    }
  }

  /** After an invalidation a late receipt for a transaction of any dropped channel changes nothing. */
  lemma LateReceiptsIgnored(m: Mgr, k: nat, j: nat, id: C.TxId, inclusion: nat)
    requires Linked(m) && TxsInv(m.txs, m.queue, m.channels) && k in m.queue && Invalidate(m, k).Some?
    requires IndexOf(m.queue, k) <= j < |m.queue| && id in m.channels[m.queue[j]].pending
    ensures var m' := Invalidate(m, k).value;
      TxFailed(m', id) == Some(m') && TxConfirmed(m', id, inclusion) == Some(m')
  {
    hide C.TxFailed, C.TxConfirmed;
    var i := IndexOf(m.queue, k);
    assert Awaits(m.channels, m.queue[j], id);
    assert m.queue[j] in m.queue[i..] by { assert m.queue[j] == m.queue[i..][j - i]; }
    assert id !in Invalidate(m, k).value.txs;
  }

  /** A pruned channel without blocks that still times out takes the whole queue with it: blocks are kept
      only if no queued channel holds any. */
  lemma InvalidateUnqueuedEmpty(m: Mgr, k: nat)
    requires Inv(m) && k in m.channels && k !in m.queue && m.channels[k].blocks == []
    ensures Invalidate(m, k).Some?
    ensures AllBlocks(Invalidate(m, k).value) == AllBlocks(m) <==> Held(m.channels, m.queue) == []
  {
    hide C.Inv, ChannelsInv, TxsInv, LatestInv, BlocksInv, Chain;
    var m' := Invalidate(m, k).value;
    assert m'.queue == [];
    assert AllBlocks(m') == [] + From(m.blocks, m.blockCursor) == From(m.blocks, m.blockCursor);
    if Held(m.channels, m.queue) != [] { assert |AllBlocks(m')| < |AllBlocks(m)|; }
  }
}
